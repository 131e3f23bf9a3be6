/** Tamper evidence: the last result digest of a verified history fixes that history. */
module CorrectionHistory {
  import opened Prelude
  import opened CorrectionLedger

  /** The plan, result and projection digests do not collide. */
  ghost predicate CollisionFree(h: Hashing) {
    && (forall a, b :: h.plan(a) == h.plan(b) ==> a == b)
    && (forall a, b :: h.core(a) == h.core(b) ==> a == b)
    && (forall a, b :: h.projection(a) == h.projection(b) ==> a == b)
  }

  /** Each entry of a verified history was verified against the entries before it. */
  lemma {:induction false} VerifiedAt(p: Ports, db: Database, s: Source, rows: seq<Version>, n: nat, i: nat)
    requires i < n <= |rows|
    requires Verify(p, db, s, rows, n).Some?
    ensures var h := Verify(p, db, s, rows, n).value;
            && Verify(p, db, s, rows, i) == Some(h[..i])
            && VersionVerified(p, db, s, rows[i], i + 1, TipOf(s, h[..i]))
            && h[i] == ItemOf(db.plans[rows[i].planId].body, rows[i])
            && h[i].resultHash == rows[i].resultHash
            && TipOf(s, h[..i]).hash == (if i == 0 then s.projectionHash else h[i - 1].resultHash)
  {
    hide VersionVerified;
    var h := Verify(p, db, s, rows, n).value;
    var before := Verify(p, db, s, rows, n - 1).value;
    assert h[..n - 1] == before;
    if i < n - 1 {
      VerifiedAt(p, db, s, rows, n - 1, i);
      assert before[..i] == h[..i];
    }
  }

  /** Two verified rows with one result digest are the same row, made by the same plan. */
  lemma SameResultSameRow(pA: Ports, dbA: Database, sA: Source, a: Version, n: nat, tipA: Tip,
                          pB: Ports, dbB: Database, sB: Source, b: Version, m: nat, tipB: Tip)
    requires CollisionFree(pA.hashing) && pB.hashing == pA.hashing
    requires VersionVerified(pA, dbA, sA, a, n, tipA) && VersionVerified(pB, dbB, sB, b, m, tipB)
    requires a.resultHash == b.resultHash
    ensures a.planId in dbA.plans && b.planId in dbB.plans
    ensures n == m && a == b && dbA.plans[a.planId] == dbB.plans[b.planId]
    ensures tipA.hash == tipB.hash && sA.sourceHash == sB.sourceHash
  {
    assert a.core == b.core;
    assert dbA.plans[a.planId].planHash == a.core.planHash == dbB.plans[b.planId].planHash;
  }

  lemma SameProjectionSameFields(h: Hashing, a: Fields, b: Fields)
    requires CollisionFree(h) && h.projection(a) == h.projection(b)
    ensures a == b
  {
  }

  lemma {:induction false} SameTailSameHistory(pA: Ports, dbA: Database, sA: Source, a: seq<Version>, n: nat,
                                               pB: Ports, dbB: Database, sB: Source, b: seq<Version>, m: nat)
    requires CollisionFree(pA.hashing) && pB.hashing == pA.hashing
    requires 0 < n <= |a| && 0 < m <= |b|
    requires pA.hashing.projection(sA.fields) == sA.projectionHash
    requires pB.hashing.projection(sB.fields) == sB.projectionHash
    requires Verify(pA, dbA, sA, a, n).Some? && Verify(pB, dbB, sB, b, m).Some?
    requires a[n - 1].resultHash == b[m - 1].resultHash
    ensures n == m && a[..n] == b[..m]
    ensures Verify(pA, dbA, sA, a, n) == Verify(pB, dbB, sB, b, m)
    ensures forall i | 0 <= i < n :: a[i].planId in dbA.plans && a[i].planId in dbB.plans
                                     && dbA.plans[a[i].planId] == dbB.plans[a[i].planId]
    ensures sA.fields == sB.fields && sA.sourceHash == sB.sourceHash
  {
    hide *;
    LastRowSame(pA, dbA, sA, a, n, pB, dbB, sB, b, m);
    if n > 1 {
      SameTailSameHistory(pA, dbA, sA, a, n - 1, pB, dbB, sB, b, m - 1);
    } else {
      SameProjectionSameFields(pA.hashing, sA.fields, sB.fields);
      NothingVerified(pA, dbA, sA, a, pB, dbB, sB, b);
    }
    RowsJoined(a, b, n);
    VerifiedJoined(pA, dbA, sA, a, pB, dbB, sB, b, n);
  }

  /** The last rows agree, and so do the digests of what came before them. */
  lemma LastRowSame(pA: Ports, dbA: Database, sA: Source, a: seq<Version>, n: nat,
                    pB: Ports, dbB: Database, sB: Source, b: seq<Version>, m: nat)
    requires CollisionFree(pA.hashing) && pB.hashing == pA.hashing
    requires 0 < n <= |a| && 0 < m <= |b|
    requires Verify(pA, dbA, sA, a, n).Some? && Verify(pB, dbB, sB, b, m).Some?
    requires a[n - 1].resultHash == b[m - 1].resultHash
    ensures n == m && a[n - 1] == b[m - 1] && sA.sourceHash == sB.sourceHash
    ensures a[n - 1].planId in dbA.plans && a[n - 1].planId in dbB.plans
    ensures dbA.plans[a[n - 1].planId] == dbB.plans[a[n - 1].planId]
    ensures Verify(pA, dbA, sA, a, n - 1).Some? && Verify(pB, dbB, sB, b, m - 1).Some?
    ensures n == 1 ==> sA.projectionHash == sB.projectionHash
    ensures n > 1 ==> a[n - 2].resultHash == b[m - 2].resultHash
  {
    hide *;
    var hA := Verify(pA, dbA, sA, a, n).value;
    var hB := Verify(pB, dbB, sB, b, m).value;
    VerifiedAt(pA, dbA, sA, a, n, n - 1);
    VerifiedAt(pB, dbB, sB, b, m, m - 1);
    SameResultSameRow(pA, dbA, sA, a[n - 1], n, TipOf(sA, hA[..n - 1]), pB, dbB, sB, b[m - 1], m,
      TipOf(sB, hB[..m - 1]));
    if n > 1 {
      VerifiedAt(pA, dbA, sA, a, n, n - 2);
      VerifiedAt(pB, dbB, sB, b, m, m - 2);
    }
  }

  lemma NothingVerified(pA: Ports, dbA: Database, sA: Source, a: seq<Version>, pB: Ports, dbB: Database, sB: Source,
                        b: seq<Version>)
    ensures Verify(pA, dbA, sA, a, 0) == Verify(pB, dbB, sB, b, 0)
  {
  }

  lemma RowsJoined(a: seq<Version>, b: seq<Version>, n: nat)
    requires 0 < n <= |a| && n <= |b| && a[..n - 1] == b[..n - 1] && a[n - 1] == b[n - 1]
    ensures a[..n] == b[..n]
  {
    assert a[..n] == a[..n - 1] + [a[n - 1]] && b[..n] == b[..n - 1] + [b[n - 1]];
  }

  /** Equal rows, plans and earlier entries give equal entries. */
  lemma VerifiedJoined(pA: Ports, dbA: Database, sA: Source, a: seq<Version>,
                       pB: Ports, dbB: Database, sB: Source, b: seq<Version>, n: nat)
    requires 0 < n <= |a| && n <= |b| && a[n - 1] == b[n - 1]
    requires a[n - 1].planId in dbA.plans && a[n - 1].planId in dbB.plans
    requires dbA.plans[a[n - 1].planId] == dbB.plans[a[n - 1].planId]
    requires Verify(pA, dbA, sA, a, n).Some? && Verify(pB, dbB, sB, b, n).Some?
    requires Verify(pA, dbA, sA, a, n - 1) == Verify(pB, dbB, sB, b, n - 1)
    ensures Verify(pA, dbA, sA, a, n) == Verify(pB, dbB, sB, b, n)
  {
    hide VersionVerified, ItemOf;
  }

  /** If two databases, read through services that share only their digests, both yield a
      history for one target and the two histories end in the same result digest, then the
      histories are equal entry by entry, were made by the same plans, start from the same
      original fields and give the same current fields. */
  lemma LastResultHashFixesHistory(pA: Ports, dbA: Database, pB: Ports, dbB: Database, target: string)
    requires CollisionFree(pA.hashing) && pB.hashing == pA.hashing
    requires Lookup(pA, dbA, target).Ok? && Lookup(pB, dbB, target).Ok?
    requires var a := Lookup(pA, dbA, target).value.history;
             var b := Lookup(pB, dbB, target).value.history;
             a != [] && b != [] && a[|a| - 1].resultHash == b[|b| - 1].resultHash
    ensures var a := Lookup(pA, dbA, target).value;
            var b := Lookup(pB, dbB, target).value;
            && a.history == b.history && a.fields == b.fields && a.version == b.version
            && a.source.fields == b.source.fields && a.source.sourceHash == b.source.sourceHash
    ensures Rows(dbA.versions, target) == Rows(dbB.versions, target)
    ensures forall row | row in Rows(dbA.versions, target) ::
              row.planId in dbA.plans && row.planId in dbB.plans && dbA.plans[row.planId] == dbB.plans[row.planId]
  {
    hide *;
    var a, b := Rows(dbA.versions, target), Rows(dbB.versions, target);
    LookupParts(pA, dbA, target);
    LookupParts(pB, dbB, target);
    var sA, sB := pA.original(target).value, pB.original(target).value;
    SameTailSameHistory(pA, dbA, sA, a, |a|, pB, dbB, sB, b, |b|);
    assert a[..|a|] == a && b[..|b|] == b;
    SameTip(sA, sB, Lookup(pA, dbA, target).value.history);
  }

  /** What a successful lookup has read. */
  lemma LookupParts(p: Ports, db: Database, target: string)
    requires Lookup(p, db, target).Ok?
    ensures p.original(target).Some?
    ensures var s, rows, e := p.original(target).value, Rows(db.versions, target), Lookup(p, db, target).value;
            && e.source == s && p.hashing.projection(s.fields) == s.projectionHash
            && Verify(p, db, s, rows, |rows|) == Some(e.history) && e.version == |e.history| == |rows|
            && e.fields == TipOf(s, e.history).fields
            && (rows != [] ==> rows[|rows| - 1].resultHash == e.history[|rows| - 1].resultHash)
  {
    hide VersionVerified, AuditInventory, OneInstance, AnchorMatches;
    var s, rows := p.original(target).value, Rows(db.versions, target);
    VerifiedLength(p, db, s, rows, |rows|);
    if rows != [] { VerifiedAt(p, db, s, rows, |rows|, |rows| - 1); }
  }

  lemma {:induction false} VerifiedLength(p: Ports, db: Database, s: Source, rows: seq<Version>, n: nat)
    requires n <= |rows| && Verify(p, db, s, rows, n).Some?
    ensures |Verify(p, db, s, rows, n).value| == n
  {
    hide VersionVerified;
    if n > 0 { VerifiedLength(p, db, s, rows, n - 1); }
  }

  lemma SameTip(a: Source, b: Source, history: seq<Item>)
    requires history != [] && a.fields == b.fields
    ensures TipOf(a, history).fields == TipOf(b, history).fields
  {
  }
}
