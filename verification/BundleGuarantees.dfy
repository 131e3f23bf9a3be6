/** Staging and readback agree; a tree that is accepted is exactly the staged one. */
module BundleGuarantees {
  import opened Prelude
  import opened Bytes
  import opened BundleReferences
  import opened BundleStage
  import Inv = BundleInventory

  // ------------------------------------------------------------- exact trees

  lemma NamedPath(paths: set<Path>, d: Path, c: Component)
    requires c in Names(paths, d)
    ensures d + [c] in paths
  {
    var q :| q in paths && |q| == |d| + 1 && d <= q && q[|d|] == c;
    assert q == d + [c];
  }

  lemma PathNamed(paths: set<Path>, q: Path)
    requires q in paths && q != []
    ensures q[|q| - 1] in Names(paths, q[..|q| - 1])
  {
    var d := q[..|q| - 1];
    assert |q| == |d| + 1 && d <= q && q[|d|] == q[|q| - 1];
  }

  lemma ParentIsDirectory(t: Tree, q: Path)
    requires WellFormed(t) && q in t && q != []
    ensures q[..|q| - 1] in t && t[q[..|q| - 1]].DirEntry?
  {
  }

  /** Equal listings of the expected directories leave no room for anything else, at any depth. */
  lemma {:induction false} NothingElse(t: Tree, members: set<Member>, q: Path)
    requires WellFormed(t) && TreeAccepted(t, members) && q in t
    ensures q in Expected(members)
    decreases |q|
  {
    assert [] in Dirs(members);
    hide WellFormed, Names, Dirs, Files;
    if q != [] {
      var d, c := q[..|q| - 1], q[|q| - 1];
      ParentIsDirectory(t, q);
      NothingElse(t, members, d);
      assert d !in Files(members);
      PathNamed(t.Keys, q);
      assert DirAccepted(t, Expected(members), d);
      NamedPath(Expected(members), d, c);
      assert q == d + [c];
    }
  }

  lemma ListedTreeIsExact(t: Tree, members: set<Member>)
    requires WellFormed(t) && TreeAccepted(t, members)
    ensures t.Keys == Expected(members)
  {
    forall q | q in t ensures q in Expected(members) { NothingElse(t, members, q); }
    hide WellFormed;
    forall q | q in Expected(members) ensures q in t {
      if q in Dirs(members) { assert DirAccepted(t, Expected(members), q); }
    }
  }

  /** An accepted tree is the manifest, the database, one correctly hashed file per referenced
      original, their directories, and nothing else. */
  lemma AcceptedTreeIsExact(p: Ports, identity: string, r: Receipt, t: Tree)
    requires WellFormed(t) && Verified(p, identity, r, t)
    ensures PathOf(Database) in t && t[PathOf(Database)].FileEntry? && p.read(t[PathOf(Database)].bytes).Some?
    ensures var s := p.read(t[PathOf(Database)].bytes).value;
            && t.Keys == Expected(s.members.Keys)
            && (forall d | d in Dirs(s.members.Keys) :: t[d] == DirEntry(DIR_MODE))
            && (forall m | m in s.members :: OriginalPresent(p, t, m, s.members[m]))
  {
    var s := p.read(t[PathOf(Database)].bytes).value;
    hide ListAccepted, Expected;
    ListedTreeIsExact(t, s.members.Keys);
    forall d | d in Dirs(s.members.Keys) ensures t[d] == DirEntry(DIR_MODE) {
      assert DirAccepted(t, Expected(s.members.Keys), d);
    }
    var list := p.decode(t[MANIFEST].bytes).value.members;
    forall m | m in s.members ensures OriginalPresent(p, t, m, s.members[m]) {
      var i :| 0 <= i < |list| && list[i].name == Attachment(m);
      assert CopyAccepted(p, t, list[i], s.members[m]);
    }
  }

  ghost predicate OriginalPresent(p: Ports, t: Tree, m: Member, v: Value) {
    var q := PathOf(Attachment(m));
    && FileRole(t, q, MEMBER_MODE, MAX_ATTACHMENT) && p.sha(t[q].bytes) == v.hash
    && p.detect(t[q].bytes) == Some((m.extension, v.mime)) && (v.size.Some? ==> |t[q].bytes| == v.size.value)
  }

  /** An inventory collected from the database's claims has what staging relies on. */
  lemma CollectedIsSound(reg: Registry, raw: seq<Claim>, coding: Inv.Coding, v: Inv.Inventory, meta: string)
    requires Inv.Collected(reg, raw, coding, v)
    ensures SoundSnapshot(Snapshot(v.members, |v.facts|, v.digest, meta))
  {
    hide Inv.Registers, Inv.Kept, Resolve, IsDigest, Inv.SortBytes, Inv.Payloads, Inv.Lines;
    forall m | m in v.members ensures v.members[m].hash == m.digest && IsDigest(m.digest) {
      var i :| 0 <= i < |v.facts| && v.facts[i].member == m;
      assert Inv.FactOf(reg, Inv.Kept(raw), Inv.Kept(raw)[i], v.facts[i]);
      Inv.FactAgrees(reg, Inv.Kept(raw), Inv.Kept(raw)[i], v.facts[i]);
    }
  }

  // ------------------------------------------------------ tamper evidence

  /** Files at one path of both trees that share a digest share their bytes. */
  ghost predicate NoCollision(p: Ports, t: Tree, u: Tree) {
    forall q | q in t && q in u && t[q].FileEntry? && u[q].FileEntry? ::
      p.sha(t[q].bytes) == p.sha(u[q].bytes) ==> t[q].bytes == u[q].bytes
  }

  lemma SameManifestAndDatabase(p: Ports, identity: string, r: Receipt, t: Tree, u: Tree)
    requires Verified(p, identity, r, t) && Verified(p, identity, r, u) && NoCollision(p, t, u)
    ensures MANIFEST in t && MANIFEST in u && t[MANIFEST] == u[MANIFEST]
    ensures PathOf(Database) in t && PathOf(Database) in u && t[PathOf(Database)] == u[PathOf(Database)]
  {
    hide ManifestAccepted, CopiesAccepted, TreeAccepted;
  }

  /** With one receipt, at most one tree is accepted: any change to a staged bundle is noticed. */
  lemma OneTreePerReceipt(p: Ports, identity: string, r: Receipt, t: Tree, u: Tree)
    requires WellFormed(t) && WellFormed(u) && NoCollision(p, t, u)
    requires Verified(p, identity, r, t) && Verified(p, identity, r, u)
    ensures t == u
  {
    SameManifestAndDatabase(p, identity, r, t, u);
    AcceptedTreeIsExact(p, identity, r, t);
    AcceptedTreeIsExact(p, identity, r, u);
    var s := p.read(t[PathOf(Database)].bytes).value;
    hide Verified, WellFormed, Expected, Dirs, Files, PathOf, OriginalPresent, NoCollision;
    forall q | q in t ensures t[q] == u[q] {
      ExpectedParts(s.members.Keys, q);
      if q !in Dirs(s.members.Keys) && q != MANIFEST && q != PathOf(Database) {
        var m :| m in s.members && q == PathOf(Attachment(m));
        SameOriginal(p, t, u, m, s.members[m]);
      }
    }
  }

  lemma SameOriginal(p: Ports, t: Tree, u: Tree, m: Member, v: Value)
    requires NoCollision(p, t, u) && OriginalPresent(p, t, m, v) && OriginalPresent(p, u, m, v)
    ensures PathOf(Attachment(m)) in t && PathOf(Attachment(m)) in u
            && t[PathOf(Attachment(m))] == u[PathOf(Attachment(m))]
  {
    hide PathOf;
  }

  lemma ExpectedParts(members: set<Member>, q: Path)
    requires q in Expected(members)
    ensures q in Dirs(members) || q == MANIFEST || q == PathOf(Database)
            || exists m :: m in members && q == PathOf(Attachment(m))
  {
    hide PathOf, Dirs;
  }

  // ------------------------------------------------------------- round trip

  lemma StagedEntries(db: ByteString, manifest: ByteString, originals: map<Member, ByteString>, members: set<Member>)
    requires forall m | m in members :: m in originals
    ensures var t := StagedTree(db, manifest, originals, Expected(members));
            && t.Keys == Expected(members)
            && MANIFEST in t && t[MANIFEST] == FileEntry(FILE_MODE, manifest)
            && PathOf(Database) in t && t[PathOf(Database)] == FileEntry(FILE_MODE, db)
            && (forall d | d in Dirs(members) :: t[d] == DirEntry(DIR_MODE))
            && (forall m | m in members ::
                 PathOf(Attachment(m)) in t && t[PathOf(Attachment(m))] == FileEntry(MEMBER_MODE, originals[m]))
  {
    var t := StagedTree(db, manifest, originals, Expected(members));
    forall m | m in members
      ensures PathOf(Attachment(m)) in t && t[PathOf(Attachment(m))] == FileEntry(MEMBER_MODE, originals[m]) {
      assert PathOf(Attachment(m)) in Files(members);
    }
  }

  lemma StagedWellFormed(db: ByteString, manifest: ByteString, originals: map<Member, ByteString>, members: set<Member>)
    requires forall m | m in members :: m in originals
    ensures var t := StagedTree(db, manifest, originals, Expected(members));
            WellFormed(t) && TreeAccepted(t, members)
  {
    var t := StagedTree(db, manifest, originals, Expected(members));
    StagedEntries(db, manifest, originals, members);
    hide StagedTree, Expected;
    ParentsAreDirs(t, members);
    ListingsMatch(t, members);
  }

  lemma ParentsAreDirs(t: Tree, members: set<Member>)
    requires t.Keys == Expected(members) && forall d | d in Dirs(members) :: t[d] == DirEntry(DIR_MODE)
    ensures WellFormed(t)
  {
    assert [] in Dirs(members);
    hide Dirs, Files;
    forall q | q in t && q != [] ensures q[..|q| - 1] in t && t[q[..|q| - 1]].DirEntry? {
      ParentExpected(members, q);
    }
  }

  lemma ListingsMatch(t: Tree, members: set<Member>)
    requires t.Keys == Expected(members) && forall d | d in Dirs(members) :: t[d] == DirEntry(DIR_MODE)
    requires MANIFEST in t && t[MANIFEST].FileEntry? && PathOf(Database) in t && t[PathOf(Database)].FileEntry?
    requires forall m | m in members :: PathOf(Attachment(m)) in t && t[PathOf(Attachment(m))].FileEntry?
    ensures TreeAccepted(t, members)
  {
    assert forall d | d in Dirs(members) :: DirAccepted(t, Expected(members), d) by {
      hide Dirs, Files, Names;
    }
    hide Dirs, PathOf, DirAccepted, Expected;
    forall f | f in Files(members) ensures f in t && t[f].FileEntry? {
      assert f == MANIFEST || f == PathOf(Database) || exists m :: m in members && f == PathOf(Attachment(m));
    }
  }

  lemma ParentExpected(members: set<Member>, q: Path)
    requires q in Expected(members) && q != []
    ensures q[..|q| - 1] in Dirs(members)
  {
    if q in Files(members) && q != MANIFEST && q != PathOf(Database) {
      var m :| m in members && q == PathOf(Attachment(m));
      assert q[..2] == ShardPath(m);
    } else if q == MANIFEST {
      assert q[..0] == [];
    } else if q == PathOf(Database) {
      assert q[..1] == [Db];
    } else if q == [Db] || q == [Attachments] {
      assert q[..0] == [];
    } else {
      var m :| m in members && q == ShardPath(m);
      assert q[..1] == [Attachments];
    }
  }

  lemma {:induction false} ListedRows(p: Ports, list: seq<Member>, originals: map<Member, ByteString>)
    requires forall m | m in list :: m in originals
    ensures var rows := ListedOf(p, list, originals);
            && |rows| == |list|
            && forall i | 0 <= i < |list| ::
                 rows[i] == Listed(Attachment(list[i]), |originals[list[i]]|, list[i].digest)
  {
    if list != [] {
      ListedRows(p, list[..|list| - 1], originals);
    }
  }

  lemma TotalLast(rows: seq<Listed>, last: Listed)
    ensures Total(rows + [last]) == Total(rows) + last.size
  {
    assert (rows + [last])[..|rows|] == rows;
  }

  lemma ListNoLonger(list: seq<Member>, members: set<Member>)
    requires forall m :: m in list <==> m in members
    requires forall i, k | 0 <= i < k < |list| :: list[i] != list[k]
    ensures |list| == |members|
    decreases |list|
  {
    if list == [] {
      assert members == {};
    } else {
      var front, last := list[..|list| - 1], list[|list| - 1];
      ListNoLonger(front, members - {last});
    }
  }

  lemma StagedListAccepted(p: Ports, db: ByteString, s: Snapshot, originals: map<Member, ByteString>, list: seq<Member>)
    requires Lawful(p) && SoundSnapshot(s) && CopiesOk(p, s, originals) && Ordered(p, list, s.members.Keys) && db != []
    requires forall m | m in list :: m in originals
    ensures var rows := ListedOf(p, list, originals) + [Listed(Database, |db|, p.sha(db))];
            ListAccepted(p, rows) && NamesMatch(rows, s.members.Keys)
  {
    hide Lawful, CopiesOk, SoundSnapshot, NamesMatch, CopyOk, IsDigest, Ordered, Sorted, ListedOf;
    ListedRows(p, list, originals);
    var rows := ListedOf(p, list, originals) + [Listed(Database, |db|, p.sha(db))];
    RowsSized(p, db, s, originals, list, rows);
    RowsNamed(p, list, s.members.Keys, rows);
    RowsSorted(p, list, s.members.Keys, rows);
  }

  lemma RowsSorted(p: Ports, list: seq<Member>, members: set<Member>, rows: seq<Listed>)
    requires Ordered(p, list, members) && |rows| == |list| + 1 && rows[|list|].name == Database
    requires forall i | 0 <= i < |list| :: rows[i].name == Attachment(list[i])
    ensures Sorted(p, rows)
  {
  }

  lemma RowsSized(p: Ports, db: ByteString, s: Snapshot, originals: map<Member, ByteString>, list: seq<Member>,
                  rows: seq<Listed>)
    requires Lawful(p) && SoundSnapshot(s) && CopiesOk(p, s, originals) && Ordered(p, list, s.members.Keys) && db != []
    requires forall m | m in list :: m in originals
    requires |rows| == |list| + 1 && rows[|list|] == Listed(Database, |db|, p.sha(db))
    requires forall i | 0 <= i < |list| :: rows[i] == Listed(Attachment(list[i]), |originals[list[i]]|, list[i].digest)
    ensures |rows| <= MAX_MEMBERS + 1 && forall i | 0 <= i < |rows| :: rows[i].size > 0 && IsDigest(rows[i].sha)
  {
    OrderedIsDistinct(p, list, s.members.Keys);
    hide IsDigest, StrictOrder;
    forall i | 0 <= i < |rows| ensures rows[i].size > 0 && IsDigest(rows[i].sha) {
      if i < |list| {
        var m := list[i];
        assert m in s.members.Keys;
        assert CopyOk(p, m, s.members[m], originals[m]);
        assert originals[m] != [];
      }
    }
  }

  lemma OrderedIsDistinct(p: Ports, list: seq<Member>, members: set<Member>)
    requires StrictOrder(p.before) && Ordered(p, list, members)
    ensures |list| == |members|
  {
    forall i, k | 0 <= i < k < |list| ensures list[i] != list[k] { assert p.before(list[i], list[k]); }
    ListNoLonger(list, members);
  }

  lemma RowsNamed(p: Ports, list: seq<Member>, members: set<Member>, rows: seq<Listed>)
    requires Ordered(p, list, members) && |rows| == |list| + 1 && rows[|list|].name == Database
    requires forall i | 0 <= i < |list| :: rows[i].name == Attachment(list[i])
    ensures NamesMatch(rows, members)
  {
    forall m | m in members ensures exists i | 0 <= i < |rows| :: rows[i].name == Attachment(m) {
      assert m in list;
      var i :| 0 <= i < |list| && list[i] == m;
      assert rows[i].name == Attachment(m);
    }
    forall i | 0 <= i < |rows| && rows[i].name.Attachment? ensures rows[i].name.member in members {
      assert i < |list| && list[i] in list;
    }
  }

  lemma StagedCopiesAccepted(p: Ports, db: ByteString, s: Snapshot, originals: map<Member, ByteString>,
                             list: seq<Member>, t: Tree)
    requires SoundSnapshot(s) && CopiesOk(p, s, originals) && Ordered(p, list, s.members.Keys)
    requires forall m | m in list :: m in originals
    requires forall m | m in s.members ::
               PathOf(Attachment(m)) in t && t[PathOf(Attachment(m))] == FileEntry(MEMBER_MODE, originals[m])
    ensures CopiesAccepted(p, t, ListedOf(p, list, originals) + [Listed(Database, |db|, p.sha(db))], s)
  {
    ListedRows(p, list, originals);
    var rows := ListedOf(p, list, originals) + [Listed(Database, |db|, p.sha(db))];
    hide ListedOf, PathOf;
    forall i | 0 <= i < |rows| && rows[i].name.Attachment? && rows[i].name.member in s.members
      ensures CopyAccepted(p, t, rows[i], s.members[rows[i].name.member]) {
      var m := list[i];
      assert CopyOk(p, m, s.members[m], originals[m]);
    }
  }

  /** An untouched staged tree is accepted with the receipt staging returned. */
  lemma StageThenVerify(p: Ports, identity: string, db: ByteString, pages: nat, originals: map<Member, ByteString>,
                        recordedAt: string, completedAt: string, t: Tree, r: Receipt)
    requires Lawful(p) && Staged(p, identity, db, pages, originals, recordedAt, completedAt, t, r)
    ensures WellFormed(t) && Verified(p, identity, r, t)
  {
    hide CopiesOk, Ordered, StagedAs, ListAccepted, NamesMatch, CopiesAccepted, TreeAccepted, WellFormed;
    var s := p.read(db).value;
    var list :| Ordered(p, list, s.members.Keys)
        && StagedAs(p, identity, db, pages, originals, recordedAt, completedAt, s, list, t, r);
    StagedAsVerifies(p, identity, db, pages, originals, recordedAt, completedAt, s, list, t, r);
  }

  lemma StagedAsVerifies(p: Ports, identity: string, db: ByteString, pages: nat, originals: map<Member, ByteString>,
                         recordedAt: string, completedAt: string, s: Snapshot, list: seq<Member>, t: Tree, r: Receipt)
    requires Lawful(p) && p.read(db) == Some(s) && |db| <= MAX_DATABASE && CopiesOk(p, s, originals)
    requires Ordered(p, list, s.members.Keys)
    requires StagedAs(p, identity, db, pages, originals, recordedAt, completedAt, s, list, t, r)
    ensures WellFormed(t) && Verified(p, identity, r, t)
  {
    hide Lawful, CopiesOk, Ordered, ListAccepted, NamesMatch, TreeAccepted, WellFormed, ListedOf, StagedTree,
      Expected, SoundSnapshot, Total, Dirs;
    var rows := ListedOf(p, list, originals);
    var m := ManifestOf(p, identity, db, pages, s, rows, recordedAt, completedAt);
    var bytes := p.encode(m);
    LawsUsed(p, db, m);
    AllOriginals(p, s, originals);
    StagedListAccepted(p, db, s, originals, list);
    TotalLast(rows, Listed(Database, |db|, p.sha(db)));
    StagedEntries(db, bytes, originals, s.members.Keys);
    StagedWellFormed(db, bytes, originals, s.members.Keys);
    StagedCopiesAccepted(p, db, s, originals, list, t);
    assert ManifestAccepted(p, identity, r, m, s);
    hide ManifestAccepted, ManifestOf, ReceiptOf;
    PartsVerify(p, identity, r, t, bytes, db, m, s);
  }

  lemma LawsUsed(p: Ports, db: ByteString, m: Manifest)
    requires Lawful(p) && p.read(db).Some?
    ensures SoundSnapshot(p.read(db).value) && db != [] && p.decode(p.encode(m)) == Some(m)
  {
    hide StrictOrder, SoundSnapshot;
  }

  lemma PartsVerify(p: Ports, identity: string, r: Receipt, t: Tree, bytes: ByteString, db: ByteString, m: Manifest,
                    s: Snapshot)
    requires MANIFEST in t && t[MANIFEST] == FileEntry(FILE_MODE, bytes) && |bytes| <= MAX_MANIFEST
    requires PathOf(Database) in t && t[PathOf(Database)] == FileEntry(FILE_MODE, db) && |db| <= MAX_DATABASE
    requires p.sha(bytes) == r.manifestSha && |bytes| == r.manifestSize && p.decode(bytes) == Some(m)
             && p.encode(m) == bytes
    requires p.sha(db) == r.dbSha && |db| == r.dbSize && p.read(db) == Some(s)
    requires ManifestAccepted(p, identity, r, m, s) && CopiesAccepted(p, t, m.members, s)
             && TreeAccepted(t, s.members.Keys)
    ensures Verified(p, identity, r, t)
  {
    hide ManifestAccepted, CopiesAccepted, TreeAccepted, PathOf;
  }

  lemma AllOriginals(p: Ports, s: Snapshot, originals: map<Member, ByteString>)
    requires CopiesOk(p, s, originals)
    ensures forall m | m in s.members :: m in originals
  {
  }

  /** Whoever alters a staged tree, in contents, names, modes or extent, is refused. */
  lemma AlteredTreeIsRefused(p: Ports, identity: string, db: ByteString, pages: nat, originals: map<Member, ByteString>,
                             recordedAt: string, completedAt: string, t: Tree, r: Receipt, u: Tree)
    requires Lawful(p) && Staged(p, identity, db, pages, originals, recordedAt, completedAt, t, r)
    requires WellFormed(u) && NoCollision(p, t, u) && u != t
    ensures !Verified(p, identity, r, u)
  {
    hide Verified, Staged, WellFormed;
    StageThenVerify(p, identity, db, pages, originals, recordedAt, completedAt, t, r);
    if Verified(p, identity, r, u) { OneTreePerReceipt(p, identity, r, t, u); }
  }
}
