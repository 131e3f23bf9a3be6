/** The stager and the reader as they work: member by member, directory by directory. */
module BundleStager {
  import opened Prelude
  import opened Bytes
  import opened BundleReferences
  import opened BundleStage
  import opened BundleGuarantees

  // ------------------------------------------------------------------ order

  method SortMembers(p: Ports, members: set<Member>) returns (list: seq<Member>)
    requires StrictOrder(p.before)
    ensures Ordered(p, list, members)
  {
    list := [];
    var rest := members;
    while rest != {}
      invariant rest <= members && Ordered(p, list, members - rest)
      decreases |rest|
    {
      var m :| m in rest;
      var k := |list|;
      while 0 < k && p.before(m, list[k - 1])
        invariant 0 <= k <= |list|
        invariant forall i | k <= i < |list| :: p.before(m, list[i])
      {
        k := k - 1;
      }
      OrderedInsert(p, list, members - rest, m, k);
      list := list[..k] + [m] + list[k..];
      rest := rest - {m};
      assert members - rest == (members - (rest + {m})) + {m};
    }
  }

  lemma OrderedInsert(p: Ports, list: seq<Member>, members: set<Member>, m: Member, k: nat)
    requires StrictOrder(p.before) && Ordered(p, list, members) && m !in members && k <= |list|
    requires forall i | k <= i < |list| :: p.before(m, list[i])
    requires 0 < k ==> !p.before(m, list[k - 1])
    ensures Ordered(p, list[..k] + [m] + list[k..], members + {m})
  {
    var made := list[..k] + [m] + list[k..];
    forall i | 0 <= i < k ensures p.before(list[i], m) {
      assert list[k - 1] in list;
      assert p.before(list[k - 1], m);
      if i < k - 1 { assert p.before(list[i], list[k - 1]); }
    }
    hide StrictOrder;
    forall x ensures x in made <==> x in members + {m} {
      assert list == list[..k] + list[k..];
    }
  }

  /** There is one way to order a set of members. */
  lemma {:induction false} OrderedUnique(p: Ports, a: seq<Member>, b: seq<Member>, members: set<Member>)
    requires StrictOrder(p.before) && Ordered(p, a, members) && Ordered(p, b, members)
    ensures a == b
    decreases |a|
  {
    OrderedIsDistinct(p, a, members);
    OrderedIsDistinct(p, b, members);
    if a != [] {
      var last := a[|a| - 1];
      SameLast(p, a, b, members);
      FrontOrdered(p, a, members);
      FrontOrdered(p, b, members);
      OrderedUnique(p, a[..|a| - 1], b[..|b| - 1], members - {last});
      assert a == a[..|a| - 1] + [last] && b == b[..|b| - 1] + [last];
    }
  }

  lemma SameLast(p: Ports, a: seq<Member>, b: seq<Member>, members: set<Member>)
    requires StrictOrder(p.before) && Ordered(p, a, members) && Ordered(p, b, members) && a != [] && b != []
    ensures a[|a| - 1] == b[|b| - 1]
  {
    var x, y := a[|a| - 1], b[|b| - 1];
    assert x in a && y in b;
    assert x in b && y in a;
    assert x == y || p.before(x, y);
    assert x == y || p.before(y, x);
  }

  lemma FrontOrdered(p: Ports, a: seq<Member>, members: set<Member>)
    requires StrictOrder(p.before) && Ordered(p, a, members) && a != []
    ensures Ordered(p, a[..|a| - 1], members - {a[|a| - 1]})
  {
    var front, last := a[..|a| - 1], a[|a| - 1];
    assert a == front + [last];
    assert forall i | 0 <= i < |front| :: front[i] != last by {
      forall i | 0 <= i < |front| ensures front[i] != last { assert p.before(a[i], a[|a| - 1]); }
    }
    hide StrictOrder;
  }

  // ---------------------------------------------------------------- staging

  function Below(paths: set<Path>): set<Path> { paths - {MANIFEST} }

  lemma ExpectedGrows(members: set<Member>, m: Member)
    ensures Below(Expected(members + {m})) == Below(Expected(members)) + {ShardPath(m), PathOf(Attachment(m))}
  {
    assert forall k | k in members :: k in members + {m};
    hide PathOf, ShardPath;
    assert Dirs(members + {m}) == Dirs(members) + {ShardPath(m)};
    assert Files(members + {m}) == Files(members) + {PathOf(Attachment(m))};
    NotManifest(m);
  }

  lemma NotManifest(m: Member)
    ensures ShardPath(m) != MANIFEST && PathOf(Attachment(m)) != MANIFEST
  {
    assert |ShardPath(m)| == 2 && |PathOf(Attachment(m))| == 3 && |MANIFEST| == 1;
  }

  lemma TreeGrows(db: ByteString, originals: map<Member, ByteString>, members: set<Member>, m: Member, t: Tree)
    requires m in originals && t == StagedTree(db, [], originals, Below(Expected(members)))
    ensures t[ShardPath(m) := DirEntry(DIR_MODE)][PathOf(Attachment(m)) := FileEntry(MEMBER_MODE, originals[m])]
         == StagedTree(db, [], originals, Below(Expected(members + {m})))
  {
    ExpectedGrows(members, m);
    assert EntryAt(db, [], originals, ShardPath(m)) == DirEntry(DIR_MODE);
    assert EntryAt(db, [], originals, PathOf(Attachment(m))) == FileEntry(MEMBER_MODE, originals[m]);
    hide Expected, EntryAt, PathOf, ShardPath, Below;
  }

  lemma TreeStarts(db: ByteString, originals: map<Member, ByteString>)
    ensures map[[] := DirEntry(DIR_MODE), [Db] := DirEntry(DIR_MODE), PathOf(Database) := FileEntry(FILE_MODE, db),
              [Attachments] := DirEntry(DIR_MODE)]
         == StagedTree(db, [], originals, Below(Expected({})))
  {
    assert Below(Expected({})) == {[], [Db], [Attachments], PathOf(Database)};
  }

  lemma TreeSealed(db: ByteString, manifest: ByteString, originals: map<Member, ByteString>, members: set<Member>)
    ensures StagedTree(db, [], originals, Below(Expected(members)))[MANIFEST := FileEntry(FILE_MODE, manifest)]
         == StagedTree(db, manifest, originals, Expected(members))
  {
    assert MANIFEST in Files(members);
    hide Dirs, Files, PathOf;
  }

  /** Copy every member of a snapshot below the stage, in the order of their names. */
  method StageMembers(p: Ports, db: ByteString, s: Snapshot, list: seq<Member>, originals: map<Member, ByteString>)
    returns (r: Option<(Tree, seq<Listed>, nat)>)
    requires Ordered(p, list, s.members.Keys)
    ensures r.Some? ==>
              && CopiesOk(p, s, originals) && (forall m | m in list :: m in originals)
              && r.value.0 == StagedTree(db, [], originals, Below(Expected(s.members.Keys)))
              && r.value.1 == ListedOf(p, list, originals) && r.value.2 == |db| + Total(r.value.1)
              && (list != [] ==> r.value.2 <= MAX_STAGE - MAX_MANIFEST)
    ensures r.None? && CopiesOk(p, s, originals) ==>
              (forall m | m in list :: m in originals)
              && |db| + Total(ListedOf(p, list, originals)) > MAX_STAGE - MAX_MANIFEST
  {
    hide Expected, StagedTree, CopyOk, PathOf, ShardPath, ListedOf, Total, Below;
    TreeStarts(db, originals);
    ListedNone(p, originals);
    var tree: Tree :=
      map[[] := DirEntry(DIR_MODE), [Db] := DirEntry(DIR_MODE), PathOf(Database) := FileEntry(FILE_MODE, db),
        [Attachments] := DirEntry(DIR_MODE)];
    var rows: seq<Listed>, aggregate := [], |db|;
    ghost var done: set<Member> := {};
    var i := 0;
    while i < |list|
      invariant 0 <= i <= |list| && (forall m :: m in done <==> m in list[..i])
      invariant forall m | m in list[..i] ::
                  m in s.members && m in originals && CopyOk(p, m, s.members[m], originals[m])
      invariant tree == StagedTree(db, [], originals, Below(Expected(done)))
      invariant rows == ListedOf(p, list[..i], originals) && aggregate == |db| + Total(rows)
      invariant i > 0 ==> aggregate <= MAX_STAGE - MAX_MANIFEST
    {
      var m := list[i];
      assert m in list;
      if m !in originals || !CopyOk(p, m, s.members[m], originals[m]) { return None; }
      var row := Listed(Attachment(m), |originals[m]|, m.digest);
      assert list[..i + 1] == list[..i] + [m];
      ListedStep(p, list[..i], m, originals);
      if ShardPath(m) !in tree {
        tree := tree[ShardPath(m) := DirEntry(DIR_MODE)];
      }
      TreeGrowsEither(db, originals, done, m, tree, StagedTree(db, [], originals, Below(Expected(done))));
      tree := tree[PathOf(Attachment(m)) := FileEntry(MEMBER_MODE, originals[m])];
      rows, aggregate, done, i := rows + [row], aggregate + |originals[m]|, done + {m}, i + 1;
      if aggregate > MAX_STAGE - MAX_MANIFEST {
        if CopiesOk(p, s, originals) {
          forall k | k in list ensures k in originals { assert k in s.members.Keys; }
          TotalGrows(p, list, originals, i);
        }
        return None;
      }
    }
    assert list[..i] == list;
    assert done == s.members.Keys;
    return Some((tree, rows, aggregate));
  }

  lemma ListedNone(p: Ports, originals: map<Member, ByteString>)
    ensures ListedOf(p, [], originals) == [] && Total([]) == 0
  {
  }

  lemma ListedStep(p: Ports, list: seq<Member>, m: Member, originals: map<Member, ByteString>)
    requires m in originals && forall k | k in list :: k in originals
    ensures var row := Listed(Attachment(m), |originals[m]|, m.digest);
            && ListedOf(p, list + [m], originals) == ListedOf(p, list, originals) + [row]
            && Total(ListedOf(p, list, originals) + [row]) == Total(ListedOf(p, list, originals)) + |originals[m]|
  {
    assert (list + [m])[..|list|] == list;
    TotalLast(ListedOf(p, list, originals), Listed(Attachment(m), |originals[m]|, m.digest));
  }

  lemma TreeGrowsEither(db: ByteString, originals: map<Member, ByteString>, members: set<Member>, m: Member,
                        now: Tree, t: Tree)
    requires m in originals && t == StagedTree(db, [], originals, Below(Expected(members)))
    requires now == if ShardPath(m) in t then t else t[ShardPath(m) := DirEntry(DIR_MODE)]
    ensures now[PathOf(Attachment(m)) := FileEntry(MEMBER_MODE, originals[m])]
            == StagedTree(db, [], originals, Below(Expected(members + {m})))
  {
    TreeGrows(db, originals, members, m, t);
    if ShardPath(m) in t {
      assert t[ShardPath(m)] == DirEntry(DIR_MODE);
      assert t[ShardPath(m) := DirEntry(DIR_MODE)] == t;
    }
  }

  lemma {:induction false} TotalGrows(p: Ports, list: seq<Member>, originals: map<Member, ByteString>, i: nat)
    requires i <= |list| && forall m | m in list :: m in originals
    ensures Total(ListedOf(p, list[..i], originals)) <= Total(ListedOf(p, list, originals))
    decreases |list|
  {
    if i < |list| {
      var front := list[..|list| - 1];
      TotalGrows(p, front, originals, i);
      assert front[..i] == list[..i];
      var m := list[|list| - 1];
      TotalLast(ListedOf(p, front, originals), Listed(Attachment(m), |originals[m]|, m.digest));
    } else {
      assert list[..i] == list;
    }
  }

  /** Stage a bundle; it is refused exactly when there is nothing such a bundle could be. */
  method StageBundle(p: Ports, identity: string, db: ByteString, pages: nat, originals: map<Member, ByteString>,
                     recordedAt: string, completedAt: string) returns (r: Option<(Tree, Receipt)>)
    requires Lawful(p)
    ensures r.Some? ==> Staged(p, identity, db, pages, originals, recordedAt, completedAt, r.value.0, r.value.1)
                        && WellFormed(r.value.0) && Verified(p, identity, r.value.1, r.value.0)
    ensures r.None? ==>
              !exists t, receipt :: Staged(p, identity, db, pages, originals, recordedAt, completedAt, t, receipt)
  {
    assert StrictOrder(p.before);
    hide Lawful, StrictOrder, CopiesOk, Verified, WellFormed, Ordered, ListedOf, StagedTree, Expected, Total, Below,
      Staged, StagedAs, ManifestOf, ReceiptOf;
    var read := p.read(db);
    if read.None? || |db| > MAX_DATABASE {
      Readable(p, identity, db, pages, originals, recordedAt, completedAt);
      return None;
    }
    var s := read.value;
    var list := SortMembers(p, s.members.Keys);
    var copied := StageMembers(p, db, s, list, originals);
    Fitting(p, identity, db, pages, originals, recordedAt, completedAt, s, list);
    if copied.None? { return None; }
    var (tree, rows, aggregate) := copied.value;
    var manifest := ManifestOf(p, identity, db, pages, s, rows, recordedAt, completedAt);
    var encoded := p.encode(manifest);
    if |encoded| > MAX_MANIFEST || aggregate + |encoded| > MAX_STAGE { return None; }
    TreeSealed(db, encoded, originals, s.members.Keys);
    tree := tree[MANIFEST := FileEntry(FILE_MODE, encoded)];
    var receipt := ReceiptOf(p, manifest, encoded);
    StagedFrom(p, identity, db, pages, originals, recordedAt, completedAt, s, list, tree, receipt);
    return Some((tree, receipt));
  }

  lemma Readable(p: Ports, identity: string, db: ByteString, pages: nat, originals: map<Member, ByteString>,
                 recordedAt: string, completedAt: string)
    ensures (exists t, r :: Staged(p, identity, db, pages, originals, recordedAt, completedAt, t, r)) ==>
              p.read(db).Some? && |db| <= MAX_DATABASE
  {
    hide CopiesOk, Ordered, StagedAs;
  }

  /** A staged bundle was staged in the one order of its members, and fits the limits in it. */
  lemma Fitting(p: Ports, identity: string, db: ByteString, pages: nat, originals: map<Member, ByteString>,
                recordedAt: string, completedAt: string, s: Snapshot, list: seq<Member>)
    requires StrictOrder(p.before) && p.read(db) == Some(s) && Ordered(p, list, s.members.Keys)
    ensures (exists t, r :: Staged(p, identity, db, pages, originals, recordedAt, completedAt, t, r)) ==>
              && CopiesOk(p, s, originals) && (forall m | m in list :: m in originals)
              && var rows := ListedOf(p, list, originals);
              var encoded := p.encode(ManifestOf(p, identity, db, pages, s, rows, recordedAt, completedAt));
              && (list != [] ==> |db| + Total(rows) <= MAX_STAGE - MAX_MANIFEST)
              && |encoded| <= MAX_MANIFEST && |db| + Total(rows) + |encoded| <= MAX_STAGE
  {
    hide StrictOrder, CopiesOk, Ordered, ListedOf, StagedTree, Expected, Total;
    if exists t, r :: Staged(p, identity, db, pages, originals, recordedAt, completedAt, t, r) {
      var t, r :| Staged(p, identity, db, pages, originals, recordedAt, completedAt, t, r);
      var other :| Ordered(p, other, s.members.Keys)
          && StagedAs(p, identity, db, pages, originals, recordedAt, completedAt, s, other, t, r);
      OrderedUnique(p, other, list, s.members.Keys);
    }
  }

  lemma StagedFrom(p: Ports, identity: string, db: ByteString, pages: nat, originals: map<Member, ByteString>,
                   recordedAt: string, completedAt: string, s: Snapshot, list: seq<Member>, t: Tree, r: Receipt)
    requires Lawful(p) && p.read(db) == Some(s) && |db| <= MAX_DATABASE && CopiesOk(p, s, originals)
             && Ordered(p, list, s.members.Keys)
    requires forall m | m in list :: m in originals
    requires var rows := ListedOf(p, list, originals);
             var m := ManifestOf(p, identity, db, pages, s, rows, recordedAt, completedAt);
             && (list != [] ==> |db| + Total(rows) <= MAX_STAGE - MAX_MANIFEST)
             && |p.encode(m)| <= MAX_MANIFEST && |db| + Total(rows) + |p.encode(m)| <= MAX_STAGE
             && t == StagedTree(db, p.encode(m), originals, Expected(s.members.Keys))
             && r == ReceiptOf(p, m, p.encode(m))
    ensures Staged(p, identity, db, pages, originals, recordedAt, completedAt, t, r)
    ensures WellFormed(t) && Verified(p, identity, r, t)
  {
    assert StagedAs(p, identity, db, pages, originals, recordedAt, completedAt, s, list, t, r) by {
      hide Lawful, CopiesOk, Ordered, ListedOf, StagedTree, Expected, Total;
    }
    hide Lawful, CopiesOk, Ordered, ListedOf, StagedTree, Expected, Total, StagedAs, ManifestOf, ReceiptOf,
      WellFormed, Verified;
    StageThenVerify(p, identity, db, pages, originals, recordedAt, completedAt, t, r);
  }

  // --------------------------------------------------------------- readback

  /** The listing of every expected directory, then the role of every expected file. */
  method CheckTree(t: Tree, members: set<Member>) returns (ok: bool)
    ensures ok == TreeAccepted(t, members)
  {
    hide DirAccepted, Dirs, Files;
    var paths := Expected(members);
    var dirs := Dirs(members);
    while dirs != {}
      invariant dirs <= Dirs(members)
      invariant forall d | d in Dirs(members) - dirs :: DirAccepted(t, paths, d)
      decreases |dirs|
    {
      var d :| d in dirs;
      if !DirAccepted(t, paths, d) { return false; }
      dirs := dirs - {d};
    }
    var files := Files(members);
    while files != {}
      invariant files <= Files(members)
      invariant forall f | f in Files(members) - files :: f in t && t[f].FileEntry?
      decreases |files|
    {
      var f :| f in files;
      if f !in t || !t[f].FileEntry? { return false; }
      files := files - {f};
    }
    return true;
  }

  method CheckCopies(p: Ports, t: Tree, list: seq<Listed>, s: Snapshot) returns (ok: bool)
    ensures ok == CopiesAccepted(p, t, list, s)
  {
    hide CopyAccepted;
    var i := 0;
    while i < |list|
      invariant 0 <= i <= |list|
      invariant forall k | 0 <= k < i && list[k].name.Attachment? && list[k].name.member in s.members ::
                  CopyAccepted(p, t, list[k], s.members[list[k].name.member])
    {
      var row := list[i];
      if row.name.Attachment? && row.name.member in s.members && !CopyAccepted(p, t, row, s.members[row.name.member]) {
        return false;
      }
      i := i + 1;
    }
    return true;
  }

  method VerifyBundle(p: Ports, identity: string, r: Receipt, t: Tree) returns (ok: bool)
    ensures ok == Verified(p, identity, r, t)
  {
    hide ManifestAccepted, CopiesAccepted, TreeAccepted;
    if !FileRole(t, MANIFEST, FILE_MODE, MAX_MANIFEST) { return false; }
    var bytes := t[MANIFEST].bytes;
    if p.sha(bytes) != r.manifestSha || |bytes| != r.manifestSize { return false; }
    var decoded := p.decode(bytes);
    if decoded.None? || p.encode(decoded.value) != bytes { return false; }
    if !DatabaseAccepted(p, t, r) { return false; }
    var read := p.read(t[PathOf(Database)].bytes);
    if read.None? || !ManifestAccepted(p, identity, r, decoded.value, read.value) { return false; }
    ok := CheckCopies(p, t, decoded.value.members, read.value);
    if ok { ok := CheckTree(t, read.value.members.Keys); }
  }
}
