/** Every ledger that preview, apply, replay, recovery and crashes can produce, in any
    order, is accepted by lookup and means the original with its edits applied in order. */
module CorrectionRuns {
  import opened Prelude
  import opened CorrectionLedger
  import opened CorrectionHistory

  /** What the approval and receipt ports promise: a decision they verified and sealed
      verifies later, and receipt material they prepared verifies later. */
  ghost predicate Honest(p: Ports) {
    && (forall d, plan, now, hash |
          p.verifyFresh(d, plan, now).Some? ::
          var v := p.verifyFresh(d, plan, now).value;
          p.verifyHistory(d, p.seal(v, hash), plan, hash, v.checkedAt) == Some(Proof(v.digest, v.checkedAt)))
    && (forall q | p.receiptMaterial(q).Some? ::
          var m := p.receiptMaterial(q).value;
          && p.hashing.sha(m.json) == m.factHash
          && p.historicalMaterial(q, m.json, SnapshotRef(q.snapshotId, m.snapshotHash), m.factHash, m.frozenSelf))
  }

  /** The source and binding ports serve this target. */
  predicate Usable(p: Ports, t: string) {
    && t != "" && p.original(t).Some?
    && var s := p.original(t).value;
    SourceVerified(p, s, t) && p.binding(s.actor).actor == s.actor
  }

  // ------------------------------------------------------------ growth

  /** `db'` only adds rows to `db`. */
  ghost predicate Grows(db: Database, db': Database) {
    && Keeps(db.plans, db'.plans) && Keeps(db.authorities, db'.authorities)
    && Keeps(db.facts, db'.facts) && Keeps(db.snapshots, db'.snapshots)
    && KeepsRows(db.versions, db'.versions) && KeepsRows(db.audit, db'.audit)
  }

  lemma GrowthKeepsVersion(p: Ports, db: Database, db': Database, s: Source, row: Version, version: nat, tip: Tip)
    requires Grows(db, db') && VersionVerified(p, db, s, row, version, tip)
    ensures VersionVerified(p, db', s, row, version, tip)
    ensures row.planId in db.plans && row.planId in db'.plans && db'.plans[row.planId] == db.plans[row.planId]
  {
    assert Rows(db.audit, s.targetId) <= Rows(db'.audit, s.targetId);
  }

  lemma {:induction false} GrowthKeepsHistory(p: Ports, db: Database, db': Database, s: Source,
                                              rows: seq<Version>, rows': seq<Version>, n: nat)
    requires Grows(db, db') && rows <= rows' && n <= |rows|
    requires Verify(p, db, s, rows, n).Some?
    ensures Verify(p, db', s, rows', n) == Verify(p, db, s, rows, n)
  {
    hide VersionVerified;
    if n > 0 {
      GrowthKeepsHistory(p, db, db', s, rows, rows', n - 1);
      GrowthKeepsVersion(p, db, db', s, rows[n - 1], n, TipOf(s, Verify(p, db, s, rows, n - 1).value));
    }
  }

  // --------------------------------------------------------- invariant

  /** A stored plan agrees with the source of its target. */
  ghost predicate PlanFits(p: Ports, k: string, plan: Plan) {
    && plan.body.planId == k
    && p.original(plan.body.targetId).Some?
    && var s := p.original(plan.body.targetId).value;
    && plan.body.route == s.route && plan.body.actor == s.actor && plan.body.sourceHash == s.sourceHash
    && plan.body.instanceId == p.binding(s.actor).instanceId
    && (plan.body.route == Receipt <==> plan.body.receipt.Some?)
  }

  ghost predicate PlansGood(p: Ports, db: Database) {
    && (forall k | k in db.plans :: PlanFits(p, k, db.plans[k]))
    && (forall j, k | j in db.plans && k in db.plans
                       && db.plans[j].body.correctionId == db.plans[k].body.correctionId :: j == k)
  }

  /** A consumed plan is the one behind the version it was made for. */
  ghost predicate ConsumptionGood(db: Database) {
    forall k | k in db.authorities ::
      && k in db.plans
      && var b := db.plans[k].body;
      && b.expectedVersion < |Rows(db.versions, b.targetId)|
      && Rows(db.versions, b.targetId)[b.expectedVersion].planId == k
  }

  ghost predicate TargetGood(p: Ports, db: Database, t: string) {
    var rows := Rows(db.versions, t);
    && AuditInventory(rows, Rows(db.audit, t))
    && (t in db.anchors ==>
         Usable(p, t) && AnchorMatches(db, p.original(t).value, p.binding(p.original(t).value.actor)))
    && (rows != [] ==>
          && Usable(p, t)
          && Verify(p, db, p.original(t).value, rows, |rows|).Some?
          && forall i | 0 <= i < |rows| ::
               rows[i].planId in db.plans
               && db.plans[rows[i].planId].body.instanceId == p.binding(p.original(t).value.actor).instanceId)
  }

  ghost predicate Inv(p: Ports, db: Database) {
    && PlansGood(p, db) && ConsumptionGood(db)
    && forall t: string :: TargetGood(p, db, t)
  }

  /** Lookup accepts every usable target of a database that keeps the invariant. */
  lemma InvariantIsAccepted(p: Ports, db: Database, t: string)
    requires TargetGood(p, db, t) && Usable(p, t)
    ensures Lookup(p, db, t).Ok?
    ensures Lookup(p, db, t).value.source == p.original(t).value
    ensures Verify(p, db, p.original(t).value, Rows(db.versions, t), |Rows(db.versions, t)|)
            == Some(Lookup(p, db, t).value.history)
  {
    hide VersionVerified;
    var rows := Rows(db.versions, t);
    var s := p.original(t).value;
    if rows != [] {
      assert rows[0].planId in db.plans;
      var ids := set i | 0 <= i < |rows| && rows[i].planId in db.plans :: db.plans[rows[i].planId].body.instanceId;
      assert db.plans[rows[0].planId].body.instanceId in ids;
      assert ids == {p.binding(s.actor).instanceId};
    }
  }

  /** What an accepted lookup tells about its target. */
  lemma AcceptedLookup(p: Ports, db: Database, t: string)
    requires Lookup(p, db, t).Ok?
    ensures Usable(p, t)
    ensures var e := Lookup(p, db, t).value;
            var s := p.original(t).value;
            && e.source == s && e.targetId == t && e.route == s.route
            && AnchorMatches(db, s, p.binding(s.actor))
            && Verify(p, db, s, Rows(db.versions, t), |Rows(db.versions, t)|) == Some(e.history)
            && e.version == |e.history| == |Rows(db.versions, t)| && e.fields == TipOf(s, e.history).fields
  {
    hide Verify;
  }

  /** Adding rows to other targets, plans or anchors keeps a target good. */
  lemma GrowthKeepsTarget(p: Ports, db: Database, db': Database, t: string)
    requires Grows(db, db') && TargetGood(p, db, t)
    requires Rows(db'.versions, t) == Rows(db.versions, t) && Rows(db'.audit, t) == Rows(db.audit, t)
    requires t in db'.anchors ==>
               Usable(p, t) && AnchorMatches(db', p.original(t).value, p.binding(p.original(t).value.actor))
    ensures TargetGood(p, db', t)
  {
    hide Verify, SourceVerified, AnchorMatches;
    var rows := Rows(db.versions, t);
    if rows != [] {
      GrowthKeepsHistory(p, db, db', p.original(t).value, rows, rows, |rows|);
    }
  }

  // ------------------------------------------------------------ preview

  /** A successful preview stores one new anchored plan, built on the verified current state. */
  lemma PreviewStores(p: Ports, db: Database, t: string, c: Changes, r: string, ids: Fresh, now: int, eligible: bool)
    requires Preview(p, db, t, c, r, ids, now, eligible).Ok?
    ensures var (db', plan) := Preview(p, db, t, c, r, ids, now, eligible).value;
            && Usable(p, t) && Lookup(p, db, t).Ok? && CanonicalChanges(p, c).Some?
            && plan.body.targetId == t && plan.body.planId == ids.planId && PlanFits(p, ids.planId, plan)
            && PlanInsertable(db, plan)
            && plan.body.before == Lookup(p, db, t).value.fields
            && AfterFields(p, plan.body.before, CanonicalChanges(p, c).value) == Some(plan.body.after)
            && var s := p.original(t).value;
            db' == db.(anchors := db.anchors[t := Anchor(s, p.binding(s.actor).realm, p.binding(s.actor).keyId)],
                       plans := db.plans[ids.planId := plan])
  {
    hide Verify, SourceVerified, AfterFields, CanonicalChanges, Lookup, TipOf, PlanInsertable;
    AcceptedLookup(p, db, t);
  }

  lemma PreviewKeeps(p: Ports, db: Database, t: string, c: Changes, r: string, ids: Fresh, now: int, eligible: bool)
    requires Inv(p, db) && Preview(p, db, t, c, r, ids, now, eligible).Ok?
    ensures var db' := Preview(p, db, t, c, r, ids, now, eligible).value.0;
            Inv(p, db') && Grows(db, db') && db'.versions == db.versions && db'.authorities == db.authorities
  {
    hide Verify, Lookup, AfterFields, CanonicalChanges, Preview, TargetGood;
    PreviewStores(p, db, t, c, r, ids, now, eligible);
    var (db', plan) := Preview(p, db, t, c, r, ids, now, eligible).value;
    assert Grows(db, db');
    forall t': string ensures TargetGood(p, db', t') {
      AnchorStays(p, db, t');
      GrowthKeepsTarget(p, db, db', t');
    }
  }

  lemma AnchorStays(p: Ports, db: Database, t: string)
    requires TargetGood(p, db, t)
    ensures t in db.anchors ==>
              Usable(p, t) && AnchorMatches(db, p.original(t).value, p.binding(p.original(t).value.actor))
  {
  }

  // ------------------------------------------------------------ consume

  /** The receipt material a commit stores, when its route has one. */
  function Stored(p: Ports, s: Source, b: PlanBody, previous: Option<SnapshotRef>, v: Verified): Option<Material> {
    if b.route == Receipt then ReceiptAgain(p, s, b, previous, p.utc(v.checkedAt)) else None
  }

  lemma ConsumeCommits(p: Ports, db: Database, plan: Plan, d: Signed, now: int, eligible: bool)
    requires Consume(p, db, plan, d, now, eligible).Ok?
    ensures Lookup(p, db, plan.body.targetId).Ok? && p.verifyFresh(d, plan, now).Some?
    ensures var e := Lookup(p, db, plan.body.targetId).value;
            var v := p.verifyFresh(d, plan, now).value;
            var row := VersionFor(p, plan, v);
            var a := AuthorityFor(p, plan, d, v, row.resultHash);
            var previous := TipOf(e.source, e.history).snapshot;
            var m := Stored(p, e.source, plan.body, previous, v);
            && PlanCurrent(plan.body, e) && DecisionBinds(plan, v) && VersionInsertable(db, row, a)
            && (plan.body.route == Receipt ==> m.Some?)
            && Consume(p, db, plan, d, now, eligible).value == Commit(p, db, e.source, plan, row, a, m, previous)
  {
    hide Lookup, PlanCurrent, TipOf, Bound, ReceiptAgain, DecisionBinds, VersionFor, AuthorityFor, VersionInsertable,
      Commit;
  }

  lemma AppendGrows<T>(table: map<string, seq<T>>, k: string, row: T)
    ensures KeepsRows(table, Append(table, k, row))
    ensures Rows(Append(table, k, row), k) == Rows(table, k) + [row]
    ensures forall j: string | j != k :: Rows(Append(table, k, row), j) == Rows(table, j)
  {
  }

  lemma CommitTables(p: Ports, db: Database, s: Source, plan: Plan, row: Version, a: Authority,
                     m: Option<Material>, previous: Option<SnapshotRef>)
    ensures var db' := Commit(p, db, s, plan, row, a, m, previous);
            && db'.plans == db.plans && db'.anchors == db.anchors
            && db'.authorities == db.authorities[plan.body.planId := a]
            && db'.versions == Append(db.versions, plan.body.targetId, row)
            && db'.audit == Append(db.audit, plan.body.targetId,
                 AuditOf(p, plan.body, row.resultHash, row.version, row.applyEpoch))
  {
    hide Append, AuditOf;
  }

  lemma CommitGrows(p: Ports, db: Database, s: Source, plan: Plan, row: Version, a: Authority,
                    m: Option<Material>, previous: Option<SnapshotRef>)
    requires plan.body.planId !in db.authorities
    requires plan.body.receipt.Some? ==>
               plan.body.correctionId !in db.facts && plan.body.receipt.value.snapshot.id !in db.snapshots
    ensures Grows(db, Commit(p, db, s, plan, row, a, m, previous))
  {
    hide AuditOf, Append, KeepsRows;
    AppendGrows(db.versions, plan.body.targetId, row);
    AppendGrows(db.audit, plan.body.targetId, AuditOf(p, plan.body, row.resultHash, row.version, row.applyEpoch));
  }

  /** The committed row passes every check lookup will make of it. */
  lemma CommittedRowVerifies(p: Ports, db: Database, s: Source, plan: Plan, d: Signed, v: Verified, now: int,
                             tip: Tip, m: Option<Material>)
    requires Honest(p) && p.verifyFresh(d, plan, now) == Some(v)
    requires PlanSealed(p.hashing, plan) && DecisionBinds(plan, v)
    requires plan.body.planId in db.plans && db.plans[plan.body.planId] == plan
    requires s.targetId == plan.body.targetId && plan.body.route == s.route && plan.body.actor == s.actor
    requires plan.body.sourceHash == s.sourceHash && plan.body.before == tip.fields
    requires plan.body.predecessorId == tip.id && plan.body.predecessorHash == tip.hash
    requires s.route == Receipt ==> s.receipt.Some?
    requires plan.body.route == Receipt <==> plan.body.receipt.Some?
    requires m == Stored(p, s, plan.body, tip.snapshot, v) && (s.route == Receipt ==> m.Some?)
    requires |Rows(db.audit, s.targetId)| == plan.body.expectedVersion
    ensures var row := VersionFor(p, plan, v);
            var db' := Commit(p, db, s, plan, row, AuthorityFor(p, plan, d, v, row.resultHash), m, tip.snapshot);
            VersionVerified(p, db', s, row, plan.body.expectedVersion + 1, tip)
  {
    var row := VersionFor(p, plan, v);
    var a := AuthorityFor(p, plan, d, v, row.resultHash);
    var db' := Commit(p, db, s, plan, row, a, m, tip.snapshot);
    assert Linked(s, plan.body, row, plan.body.expectedVersion + 1, tip);
    CommitTables(p, db, s, plan, row, a, m, tip.snapshot);
    CommittedAuthorised(p, db', plan, d, v, now);
    if s.route == Receipt { CommittedReceipt(p, db, s, plan, d, v, now, tip, m); }
    AppendGrows(db.audit, plan.body.targetId, AuditOf(p, plan.body, row.resultHash, row.version, row.applyEpoch));
    assert row.version == plan.body.expectedVersion + 1 && row.planId == plan.body.planId;
    hide Commit, Linked, Authorised, ReceiptVerified, AuditOf, Append, AuthorityFor, VersionFor, KeepsRows, Honest,
      PlanSealed, DecisionBinds;
    assert plan.body.targetId == s.targetId;
  }

  lemma CommittedAuthorised(p: Ports, db: Database, plan: Plan, d: Signed, v: Verified, now: int)
    requires Honest(p) && p.verifyFresh(d, plan, now) == Some(v) && DecisionBinds(plan, v)
    requires plan.body.planId in db.authorities
    requires db.authorities[plan.body.planId] == AuthorityFor(p, plan, d, v, VersionFor(p, plan, v).resultHash)
    ensures Authorised(p, db, plan, VersionFor(p, plan, v))
  {
  }

  lemma CommittedReceipt(p: Ports, db: Database, s: Source, plan: Plan, d: Signed, v: Verified, now: int, tip: Tip,
                         m: Option<Material>)
    requires Honest(p) && p.verifyFresh(d, plan, now) == Some(v) && DecisionBinds(plan, v)
             && PlanSealed(p.hashing, plan)
    requires s.targetId == plan.body.targetId && plan.body.route == s.route == Receipt
    requires s.receipt.Some? && plan.body.receipt.Some?
    requires m == Stored(p, s, plan.body, tip.snapshot, v) && m.Some?
    ensures var row := VersionFor(p, plan, v);
            ReceiptVerified(p,
              Commit(p, db, s, plan, row, AuthorityFor(p, plan, d, v, row.resultHash), m, tip.snapshot), s, plan.body,
                row, tip)
  {
    hide Append, AuditOf;
  }

  lemma TargetExtends(p: Ports, db: Database, db': Database, t: string, row: Version, event: AuditEvent)
    requires Grows(db, db') && db'.plans == db.plans && db'.anchors == db.anchors
    requires TargetGood(p, db, t) && Usable(p, t)
    requires Rows(db'.versions, t) == Rows(db.versions, t) + [row]
    requires Rows(db'.audit, t) == Rows(db.audit, t) + [event] && event.correctionId == row.mirror.correctionId
    requires Verify(p, db, p.original(t).value, Rows(db.versions, t), |Rows(db.versions, t)|).Some?
    requires row.planId in db.plans
    requires db.plans[row.planId].body.instanceId == p.binding(p.original(t).value.actor).instanceId
    requires var s := p.original(t).value;
             var rows := Rows(db.versions, t);
             VersionVerified(p, db', s, row, |rows| + 1, TipOf(s, Verify(p, db, s, rows, |rows|).value))
    ensures TargetGood(p, db', t)
  {
    hide VersionVerified, SourceVerified;
    var rows, rows' := Rows(db.versions, t), Rows(db'.versions, t);
    GrowthKeepsHistory(p, db, db', p.original(t).value, rows, rows', |rows|);
  }

  /** The state a successful first consumption leaves, target by target. */
  lemma ConsumeTargets(p: Ports, db: Database, plan: Plan, d: Signed, now: int, eligible: bool, t': string)
    requires Honest(p) && TargetGood(p, db, plan.body.targetId) && TargetGood(p, db, t')
    requires plan.body.planId in db.plans && db.plans[plan.body.planId] == plan
    requires PlanSealed(p.hashing, plan) && PlanFits(p, plan.body.planId, plan)
    requires Consume(p, db, plan, d, now, eligible).Ok?
    ensures TargetGood(p, Consume(p, db, plan, d, now, eligible).value, t')
  {
    hide Honest, Lookup, Consume, PlanSealed, DecisionBinds, Verify, Commit, Stored, VersionVerified, AuditOf,
         TargetGood, Grows, VersionInsertable, MirrorOf, CoreOf, Append;
    ConsumeCommits(p, db, plan, d, now, eligible);
    ConsumeTables(p, db, plan, d, now, eligible);
    ConsumeGrows(p, db, plan, d, now, eligible);
    var t := plan.body.targetId;
    AcceptedLookup(p, db, t);
    var e := Lookup(p, db, t).value;
    var v := p.verifyFresh(d, plan, now).value;
    var row := VersionFor(p, plan, v);
    var tip := TipOf(e.source, e.history);
    var event := AuditOf(p, plan.body, row.resultHash, row.version, row.applyEpoch);
    var db' := Consume(p, db, plan, d, now, eligible).value;
    AppendGrows(db.versions, t, row);
    AppendGrows(db.audit, t, event);
    if t' == t {
      AuditLength(p, db, t);
      CommittedRowVerifies(p, db, e.source, plan, d, v, now, tip, Stored(p, e.source, plan.body, tip.snapshot, v));
      AuditNames(p, plan.body, row);
      TargetExtends(p, db, db', t, row, event);
    } else {
      AnchorStays(p, db, t');
      GrowthKeepsTarget(p, db, db', t');
    }
  }

  lemma ConsumeTables(p: Ports, db: Database, plan: Plan, d: Signed, now: int, eligible: bool)
    requires Consume(p, db, plan, d, now, eligible).Ok?
    ensures p.verifyFresh(d, plan, now).Some? && Lookup(p, db, plan.body.targetId).Ok?
    ensures var db' := Consume(p, db, plan, d, now, eligible).value;
            var t := plan.body.targetId;
            var row := VersionFor(p, plan, p.verifyFresh(d, plan, now).value);
            && db'.plans == db.plans && db'.anchors == db.anchors
            && plan.body.planId !in db.authorities
            && db'.authorities.Keys == db.authorities.Keys + {plan.body.planId}
            && db'.authorities[plan.body.planId].decision == d
            && |Rows(db.versions, t)| == plan.body.expectedVersion
            && db'.versions == Append(db.versions, t, row)
            && db'.audit == Append(db.audit, t, AuditOf(p, plan.body, row.resultHash, row.version, row.applyEpoch))
  {
    hide Lookup, Consume, DecisionBinds, Verify, Commit, Stored, AuditOf, Append, CoreOf;
    ConsumeCommits(p, db, plan, d, now, eligible);
    AcceptedLookup(p, db, plan.body.targetId);
    var e := Lookup(p, db, plan.body.targetId).value;
    var v := p.verifyFresh(d, plan, now).value;
    var row := VersionFor(p, plan, v);
    var previous := TipOf(e.source, e.history).snapshot;
    CommitTables(p, db, e.source, plan, row, AuthorityFor(p, plan, d, v, row.resultHash),
                 Stored(p, e.source, plan.body, previous, v), previous);
  }

  lemma ConsumeGrows(p: Ports, db: Database, plan: Plan, d: Signed, now: int, eligible: bool)
    requires Consume(p, db, plan, d, now, eligible).Ok?
    requires plan.body.route == Receipt <==> plan.body.receipt.Some?
    ensures Grows(db, Consume(p, db, plan, d, now, eligible).value)
  {
    hide Lookup, Consume, DecisionBinds, Verify, Commit, Stored, AuditOf, Grows, Append, CoreOf, PlanCurrent;
    ConsumeCommits(p, db, plan, d, now, eligible);
    var e := Lookup(p, db, plan.body.targetId).value;
    var v := p.verifyFresh(d, plan, now).value;
    var row := VersionFor(p, plan, v);
    var previous := TipOf(e.source, e.history).snapshot;
    CommitGrows(p, db, e.source, plan, row, AuthorityFor(p, plan, d, v, row.resultHash),
                Stored(p, e.source, plan.body, previous, v), previous);
  }

  lemma ConsumeKeeps(p: Ports, db: Database, plan: Plan, d: Signed, now: int, eligible: bool)
    requires Honest(p) && Inv(p, db)
    requires plan.body.planId in db.plans && db.plans[plan.body.planId] == plan && PlanSealed(p.hashing, plan)
    requires Consume(p, db, plan, d, now, eligible).Ok?
    ensures Inv(p, Consume(p, db, plan, d, now, eligible).value)
  {
    hide Honest, Lookup, Consume, PlanSealed, TargetGood, AuditOf, CoreOf, Append;
    ConsumeTables(p, db, plan, d, now, eligible);
    AppendGrows(db.versions, plan.body.targetId, VersionFor(p, plan, p.verifyFresh(d, plan, now).value));
    forall t': string ensures TargetGood(p, Consume(p, db, plan, d, now, eligible).value, t') {
      ConsumeTargets(p, db, plan, d, now, eligible, t');
    }
  }

  lemma AuditLength(p: Ports, db: Database, t: string)
    requires TargetGood(p, db, t)
    ensures |Rows(db.audit, t)| == |Rows(db.versions, t)|
  {
  }

  lemma AuditNames(p: Ports, b: PlanBody, row: Version)
    ensures AuditOf(p, b, row.resultHash, row.version, row.applyEpoch).correctionId == MirrorOf(b).correctionId
  {
  }

  // ------------------------------------------------------------ all runs

  /** Every operation keeps the invariant and only adds rows. */
  lemma StepKeeps(p: Ports, db: Database, op: Op)
    requires Honest(p) && Inv(p, db)
    ensures Inv(p, Step(p, db, op)) && Grows(db, Step(p, db, op))
  {
    hide Honest, Inv, Lookup, Preview, Consume, PlanFits, Grows;
    assert Grows(db, db) by { GrowsReflexive(db); }
    match op
    case DoPreview(t, c, r, ids, now, eligible) =>
      if Preview(p, db, t, c, r, ids, now, eligible).Ok? {
        PreviewKeeps(p, db, t, c, r, ids, now, eligible);
      }
    case DoApply(id, d, now, eligible) =>
      if id in db.plans && id !in db.authorities && Apply(p, db, id, d, now, eligible).Ok? {
        PlanOf(p, db, id);
        ConsumeKeeps(p, db, db.plans[id], d, now, eligible);
        ConsumeGrows(p, db, db.plans[id], d, now, eligible);
      }
    case DoRecover(_) =>
    case Crash =>
  }

  lemma GrowsReflexive(db: Database)
    ensures Grows(db, db)
  {
  }

  lemma PlanOf(p: Ports, db: Database, id: string)
    requires Inv(p, db) && id in db.plans
    ensures PlanFits(p, id, db.plans[id])
    ensures db.plans[id].body.planId == id && (db.plans[id].body.route == Receipt <==> db.plans[id].body.receipt.Some?)
  {
  }

  lemma GrowsTransitive(a: Database, b: Database, c: Database)
    requires Grows(a, b) && Grows(b, c)
    ensures Grows(a, c)
  {
    forall k: string ensures Rows(a.versions, k) <= Rows(c.versions, k) && Rows(a.audit, k) <= Rows(c.audit, k) {
      assert Rows(a.versions, k) <= Rows(b.versions, k) <= Rows(c.versions, k);
      assert Rows(a.audit, k) <= Rows(b.audit, k) <= Rows(c.audit, k);
    }
  }

  lemma EmptyIsGood(p: Ports)
    ensures Inv(p, EMPTY)
  {
  }

  lemma {:induction false} RunKeeps(p: Ports, db: Database, ops: seq<Op>)
    requires Honest(p) && Inv(p, db)
    ensures Inv(p, Run(p, db, ops)) && Grows(db, Run(p, db, ops))
  {
    hide Honest, Inv, Step, Grows;
    if ops == [] {
      GrowsReflexive(db);
    } else {
      var middle := Run(p, db, ops[..|ops| - 1]);
      RunKeeps(p, db, ops[..|ops| - 1]);
      StepKeeps(p, middle, ops[|ops| - 1]);
      GrowsTransitive(db, middle, Step(p, middle, ops[|ops| - 1]));
    }
  }

  /** Entry `i` is version i + 1, starts from the fields before it and, for a receipt, stores a
      snapshot linked to the snapshot before it; `TipOf` says what is before it. */
  ghost predicate EntryLinked(db: Database, e: Effective, i: nat)
    requires i < |e.history|
  {
    var item := e.history[i];
    var tip := TipOf(e.source, e.history[..i]);
    && item.version == i + 1 && item.before == tip.fields
    && (e.route == Receipt ==>
          && item.correctionId in db.facts && item.snapshot.Some? && tip.snapshot.Some?
          && db.facts[item.correctionId].snapshot == item.snapshot.value
          && db.facts[item.correctionId].previous == tip.snapshot.value)
  }

  ghost predicate ProperHistory(db: Database, e: Effective) {
    && e.version == |e.history|
    && e.fields == (if e.history == [] then e.source.fields else e.history[|e.history| - 1].after)
    && forall i | 0 <= i < |e.history| :: EntryLinked(db, e, i)
  }

  /** Whatever the database holds, a history that lookup accepts is proper. */
  lemma AcceptedIsProper(p: Ports, db: Database, t: string)
    requires Lookup(p, db, t).Ok?
    ensures ProperHistory(db, Lookup(p, db, t).value)
  {
    hide Lookup, Verify, EntryLinked;
    AcceptedLookup(p, db, t);
    forall i | 0 <= i < |Lookup(p, db, t).value.history| ensures EntryLinked(db, Lookup(p, db, t).value, i) {
      EntryIsLinked(p, db, t, i);
    }
  }

  lemma EntryIsLinked(p: Ports, db: Database, t: string, i: nat)
    requires Lookup(p, db, t).Ok? && i < |Lookup(p, db, t).value.history|
    ensures EntryLinked(db, Lookup(p, db, t).value, i)
  {
    hide Lookup, Verify, Authorised, PlanSealed;
    AcceptedLookup(p, db, t);
    var rows := Rows(db.versions, t);
    VerifiedAt(p, db, p.original(t).value, rows, |rows|, i);
  }

  /** From the empty ledger, whatever mix of operations and crashes ran, lookup accepts every
      target its ports serve and finds a proper history. */
  lemma EveryRunIsAccepted(p: Ports, ops: seq<Op>, t: string)
    requires Honest(p) && Usable(p, t)
    ensures var db := Run(p, EMPTY, ops);
            Lookup(p, db, t).Ok? && ProperHistory(db, Lookup(p, db, t).value)
  {
    hide Honest, Lookup, TargetGood, Verify, SourceVerified, ProperHistory, Usable, Run;
    EmptyIsGood(p);
    RunKeeps(p, EMPTY, ops);
    InvariantIsAccepted(p, Run(p, EMPTY, ops), t);
    AcceptedIsProper(p, Run(p, EMPTY, ops), t);
  }

  // -------------------------------------------------- meaning of a ledger

  /** The edits each plan was asked to make, and per target the edits committed so far. */
  datatype Journal = Journal(intents: map<string, Changes>, committed: map<string, seq<Changes>>)

  const BLANK := Journal(map[], map[])

  /** What an operation, run on `db`, writes into the journal. */
  function Note(p: Ports, db: Database, j: Journal, op: Op): Journal {
    match op
    case DoPreview(t, c, r, ids, now, eligible) =>
      if Preview(p, db, t, c, r, ids, now, eligible).Ok? && CanonicalChanges(p, c).Some?
      then j.(intents := j.intents[ids.planId := CanonicalChanges(p, c).value]) else j
    case DoApply(id, d, now, eligible) =>
      if Apply(p, db, id, d, now, eligible).Ok? && id in db.plans && id !in db.authorities && id in j.intents
      then j.(committed := Append(j.committed, db.plans[id].body.targetId, j.intents[id])) else j
    case DoRecover(_) => j
    case Crash => j
  }

  function Journalled(p: Ports, ops: seq<Op>): Journal {
    if ops == [] then BLANK
    else Note(p, Run(p, EMPTY, ops[..|ops| - 1]), Journalled(p, ops[..|ops| - 1]), ops[|ops| - 1])
  }

  /** The original fields with `edits` applied in order. */
  function Fold(p: Ports, original: Fields, edits: seq<Changes>): Option<Fields> {
    if edits == [] then Some(original)
    else
      match Fold(p, original, edits[..|edits| - 1])
      case None => None
      case Some(f) => AfterFields(p, f, edits[|edits| - 1])
  }

  ghost predicate Faithful(p: Ports, db: Database, j: Journal) {
    && (forall k | k in db.plans ::
          k in j.intents && AfterFields(p, db.plans[k].body.before, j.intents[k]) == Some(db.plans[k].body.after))
    && (forall t: string :: TargetJournalled(db, j, t))
  }

  ghost predicate TargetJournalled(db: Database, j: Journal, t: string) {
    && |Rows(j.committed, t)| == |Rows(db.versions, t)|
    && forall i | 0 <= i < |Rows(db.versions, t)| ::
         Rows(db.versions, t)[i].planId in db.plans && Rows(db.versions, t)[i].planId in j.intents
         && Rows(j.committed, t)[i] == j.intents[Rows(db.versions, t)[i].planId]
  }

  lemma PlanAdded(p: Ports, db: Database, db': Database, j: Journal, k: string, plan: Plan, c: Changes)
    requires Faithful(p, db, j) && k !in db.plans
    requires db'.plans == db.plans[k := plan] && db'.versions == db.versions
    requires AfterFields(p, plan.body.before, c) == Some(plan.body.after)
    ensures Faithful(p, db', j.(intents := j.intents[k := c]))
  {
    hide AfterFields;
    var j' := j.(intents := j.intents[k := c]);
    forall t: string ensures TargetJournalled(db', j', t) {
      assert TargetJournalled(db, j, t);
    }
  }

  lemma VersionAdded(p: Ports, db: Database, db': Database, j: Journal, t: string, row: Version)
    requires Faithful(p, db, j) && row.planId in db.plans && row.planId in j.intents
    requires db'.plans == db.plans && db'.versions == Append(db.versions, t, row)
    ensures Faithful(p, db', j.(committed := Append(j.committed, t, j.intents[row.planId])))
  {
    hide AfterFields, Append;
    AppendGrows(db.versions, t, row);
    AppendGrows(j.committed, t, j.intents[row.planId]);
    var j' := j.(committed := Append(j.committed, t, j.intents[row.planId]));
    forall t': string ensures TargetJournalled(db', j', t') {
      assert TargetJournalled(db, j, t');
    }
  }

  lemma NoteFaithful(p: Ports, db: Database, j: Journal, op: Op)
    requires Honest(p) && Inv(p, db) && Faithful(p, db, j)
    ensures Faithful(p, Step(p, db, op), Note(p, db, j, op))
  {
    hide Honest, Inv, Lookup, Preview, Consume, PlanFits, Grows, AfterFields, CanonicalChanges, Append, VersionFor,
         AuditOf, TargetJournalled;
    match op
    case DoPreview(t, c, r, ids, now, eligible) =>
      if Preview(p, db, t, c, r, ids, now, eligible).Ok? {
        PreviewStores(p, db, t, c, r, ids, now, eligible);
        var (db', plan) := Preview(p, db, t, c, r, ids, now, eligible).value;
        PlanAdded(p, db, db', j, ids.planId, plan, CanonicalChanges(p, c).value);
      }
    case DoApply(id, d, now, eligible) =>
      if id in db.plans && id !in db.authorities && Apply(p, db, id, d, now, eligible).Ok? {
        PlanOf(p, db, id);
        ConsumeTables(p, db, db.plans[id], d, now, eligible);
        var v := p.verifyFresh(d, db.plans[id], now).value;
        RowOfPlan(p, db.plans[id], v);
        VersionAdded(p, db, Step(p, db, op), j, db.plans[id].body.targetId, VersionFor(p, db.plans[id], v));
      }
    case DoRecover(_) =>
    case Crash =>
  }

  lemma RowOfPlan(p: Ports, plan: Plan, v: Verified)
    ensures VersionFor(p, plan, v).planId == plan.body.planId
  {
  }

  lemma {:induction false} JournalFaithful(p: Ports, ops: seq<Op>)
    requires Honest(p)
    ensures Faithful(p, Run(p, EMPTY, ops), Journalled(p, ops))
  {
    hide Honest, Inv, Step, Note;
    if ops != [] {
      var middle := Run(p, EMPTY, ops[..|ops| - 1]);
      EmptyIsGood(p);
      RunKeeps(p, EMPTY, ops[..|ops| - 1]);
      JournalFaithful(p, ops[..|ops| - 1]);
      NoteFaithful(p, middle, Journalled(p, ops[..|ops| - 1]), ops[|ops| - 1]);
    }
  }

  lemma {:induction false} FoldMatches(p: Ports, db: Database, j: Journal, t: string, s: Source, n: nat)
    requires Faithful(p, db, j) && n <= |Rows(db.versions, t)|
    requires Verify(p, db, s, Rows(db.versions, t), n).Some?
    ensures |Rows(j.committed, t)| == |Rows(db.versions, t)|
    ensures Fold(p, s.fields, Rows(j.committed, t)[..n])
            == Some(TipOf(s, Verify(p, db, s, Rows(db.versions, t), n).value).fields)
  {
    hide AfterFields, VersionVerified;
    assert TargetJournalled(db, j, t);
    if n > 0 {
      FoldMatches(p, db, j, t, s, n - 1);
      var rows := Rows(db.versions, t);
      var h := Verify(p, db, s, rows, n - 1).value;
      assert Rows(j.committed, t)[..n][..n - 1] == Rows(j.committed, t)[..n - 1];
      VersionBuildsOnTip(p, db, s, rows[n - 1], n, TipOf(s, h));
    }
  }

  lemma VersionBuildsOnTip(p: Ports, db: Database, s: Source, row: Version, n: nat, tip: Tip)
    requires VersionVerified(p, db, s, row, n, tip)
    ensures db.plans[row.planId].body.before == tip.fields
  {
  }

  /** The current value of every target, after any run, is its original with the committed
      edits applied in commit order, and its version counts them. */
  lemma LedgerMeansFoldedEdits(p: Ports, ops: seq<Op>, t: string)
    requires Honest(p) && Usable(p, t)
    ensures var e := Lookup(p, Run(p, EMPTY, ops), t);
            var edits := Rows(Journalled(p, ops).committed, t);
            && e.Ok? && e.value.version == |edits|
            && Fold(p, p.original(t).value.fields, edits) == Some(e.value.fields)
  {
    hide Honest, Lookup, Faithful, Verify, SourceVerified, Run, Journalled, Fold;
    EveryRunIsAccepted(p, ops, t);
    JournalFaithful(p, ops);
    var db := Run(p, EMPTY, ops);
    AcceptedLookup(p, db, t);
    var n := |Rows(db.versions, t)|;
    FoldMatches(p, db, Journalled(p, ops), t, p.original(t).value, n);
    assert Rows(Journalled(p, ops).committed, t)[..n] == Rows(Journalled(p, ops).committed, t);
  }
}
