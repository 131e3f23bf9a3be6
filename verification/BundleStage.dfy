/** Staging a snapshot bundle as a tree of files with a manifest, and its independent readback. */
module BundleStage {
  import opened Prelude
  import opened Bytes
  import opened BundleReferences

  const MAX_DATABASE := 67_108_864
  const MAX_ATTACHMENT := 20_971_520
  const MAX_MANIFEST := 1_048_576
  const MAX_STAGE := 268_435_456
  const DIR_MODE: nat := 0x1C0      // octal 700
  const FILE_MODE: nat := 0x180     // octal 600
  const MEMBER_MODE: nat := 0x100   // octal 400

  // ------------------------------------------------------------------ trees

  /** A file name: the fixed ones, a shard, a stored attachment, or any other. */
  datatype Component =
    | Db
    | CoreSqlite
    | Attachments
    | ManifestJson
    | Shard(digits: string)
    | Stored(member: Member)
    | OtherName(name: string)

  type Path = seq<Component>

  datatype Entry = DirEntry(mode: nat) | FileEntry(mode: nat, bytes: ByteString) | SpecialEntry

  type Tree = map<Path, Entry>

  /** Every entry but the root lies in a directory of the tree. */
  ghost predicate WellFormed(t: Tree) {
    [] in t && forall p | p in t && p != [] :: p[..|p| - 1] in t && t[p[..|p| - 1]].DirEntry?
  }

  /** The names directly below `d`. */
  function Names(paths: set<Path>, d: Path): set<Component> {
    set p | p in paths && |p| == |d| + 1 && d <= p :: p[|d|]
  }

  datatype Name = Database | Attachment(member: Member)

  function ShardPath(m: Member): Path { [Attachments, Shard(if |m.digest| < 2 then m.digest else m.digest[..2])] }

  function PathOf(n: Name): Path {
    match n
    case Database => [Db, CoreSqlite]
    case Attachment(m) => ShardPath(m) + [Stored(m)]
  }

  const MANIFEST: Path := [ManifestJson]

  function Dirs(members: set<Member>): set<Path> {
    {[], [Db], [Attachments]} + set m | m in members :: ShardPath(m)
  }

  function Files(members: set<Member>): set<Path> {
    {MANIFEST, PathOf(Database)} + set m | m in members :: PathOf(Attachment(m))
  }

  function Expected(members: set<Member>): set<Path> { Dirs(members) + Files(members) }

  // ---------------------------------------------------------------- records

  /** What the database of a snapshot says of itself and of its originals. */
  datatype Snapshot = Snapshot(members: map<Member, Value>, count: nat, digest: string, meta: string)

  datatype Listed = Listed(name: Name, size: nat, sha: string)

  datatype DatabaseRow = DatabaseRow(sha: string, size: nat, pages: nat, meta: string)

  datatype Manifest = Manifest(
    identity: string, recordedAt: string, pointSha: string, completedAt: string, database: DatabaseRow,
    members: seq<Listed>, references: nat, referenceSha: string, memberCount: nat, memberBytes: nat)

  datatype Receipt = Receipt(
    dbSize: nat, dbSha: string, pages: nat, manifestSha: string, manifestSize: nat, memberCount: nat, memberBytes: nat,
    references: nat, referenceSha: string, recordedAt: string, completedAt: string, meta: string)

  /** What the bundle uses and does not define: the digest, the database reader, the content
      sniffer, canonical JSON, and the order of the member names. */
  datatype Ports = Ports(
    sha: ByteString -> string, read: ByteString -> Option<Snapshot>, detect: ByteString -> Option<(Extension, Mime)>,
    encode: Manifest -> ByteString, decode: ByteString -> Option<Manifest>, before: (Member, Member) -> bool)

  ghost predicate Lawful(p: Ports) {
    && (forall m :: p.decode(p.encode(m)) == Some(m))
    && (forall b :: IsDigest(p.sha(b)))
    && p.detect([]) == None && p.read([]) == None
    && (forall b: ByteString :: p.read(b).Some? ==> SoundSnapshot(p.read(b).value))
    && StrictOrder(p.before)
  }

  /** What resolving the references guarantees of every member. */
  ghost predicate SoundSnapshot(s: Snapshot) {
    |s.members| <= MAX_MEMBERS && forall m | m in s.members :: s.members[m].hash == m.digest && IsDigest(m.digest)
  }

  ghost predicate StrictOrder(before: (Member, Member) -> bool) {
    && (forall a :: !before(a, a))
    && (forall a, b :: a != b ==> before(a, b) || before(b, a))
    && (forall a, b, c :: before(a, b) && before(b, c) ==> before(a, c))
  }

  function Total(list: seq<Listed>): nat {
    if list == [] then 0 else Total(list[..|list| - 1]) + list[|list| - 1].size
  }

  // ---------------------------------------------------------------- staging

  /** `c` may be copied as member `m`. */
  predicate CopyOk(p: Ports, m: Member, v: Value, c: ByteString) {
    && |c| <= MAX_ATTACHMENT && (v.size.Some? ==> v.size.value == |c|)
    && p.sha(c) == v.hash && p.detect(c) == Some((m.extension, v.mime))
  }

  predicate CopiesOk(p: Ports, s: Snapshot, originals: map<Member, ByteString>) {
    forall m | m in s.members :: m in originals && CopyOk(p, m, s.members[m], originals[m])
  }

  /** The members in the order of their names; every attachment comes before the database. */
  ghost predicate Ordered(p: Ports, list: seq<Member>, members: set<Member>) {
    && (forall m :: m in list <==> m in members)
    && (forall i, k | 0 <= i < k < |list| :: p.before(list[i], list[k]))
  }

  function ListedOf(p: Ports, list: seq<Member>, originals: map<Member, ByteString>): seq<Listed>
    requires forall m | m in list :: m in originals
  {
    if list == [] then []
    else
      var m := list[|list| - 1];
      ListedOf(p, list[..|list| - 1], originals) + [Listed(Attachment(m), |originals[m]|, m.digest)]
  }

  function ManifestOf(p: Ports, identity: string, db: ByteString, pages: nat, s: Snapshot, attachments: seq<Listed>,
                      recordedAt: string, completedAt: string): Manifest
  {
    var rows := attachments + [Listed(Database, |db|, p.sha(db))];
    Manifest(identity, recordedAt, p.sha(db), completedAt, DatabaseRow(p.sha(db), |db|, pages, s.meta),
             rows, s.count, s.digest, |rows|, |db| + Total(attachments))
  }

  function ReceiptOf(p: Ports, m: Manifest, bytes: ByteString): Receipt {
    Receipt(m.database.size, m.database.sha, m.database.pages, p.sha(bytes), |bytes|, m.memberCount, m.memberBytes,
            m.references, m.referenceSha, m.recordedAt, m.completedAt, m.database.meta)
  }

  /** The entry that belongs at a path of the staged tree. */
  function EntryAt(db: ByteString, manifest: ByteString, originals: map<Member, ByteString>, q: Path): Entry {
    if q == MANIFEST then FileEntry(FILE_MODE, manifest)
    else if q == PathOf(Database) then FileEntry(FILE_MODE, db)
    else if |q| == 3 && q[2].Stored? && q[2].member in originals then FileEntry(MEMBER_MODE, originals[q[2].member])
    else DirEntry(DIR_MODE)
  }

  function StagedTree(db: ByteString, manifest: ByteString, originals: map<Member, ByteString>,
                      paths: set<Path>): Tree {
    map q | q in paths :: EntryAt(db, manifest, originals, q)
  }

  /** `t` and `r` are what staging `db` with these originals produces. */
  ghost predicate Staged(p: Ports, identity: string, db: ByteString, pages: nat, originals: map<Member, ByteString>,
                         recordedAt: string, completedAt: string, t: Tree, r: Receipt)
  {
    && p.read(db).Some? && |db| <= MAX_DATABASE
    && var s := p.read(db).value;
    && CopiesOk(p, s, originals)
    && exists list ::
         Ordered(p, list, s.members.Keys)
         && StagedAs(p, identity, db, pages, originals, recordedAt, completedAt, s, list, t, r)
  }

  ghost predicate StagedAs(p: Ports, identity: string, db: ByteString, pages: nat, originals: map<Member, ByteString>,
                           recordedAt: string, completedAt: string, s: Snapshot, list: seq<Member>, t: Tree, r: Receipt)
  {
    && (forall m | m in list :: m in originals)
    && var m := ManifestOf(p, identity, db, pages, s, ListedOf(p, list, originals), recordedAt, completedAt);
    && (list != [] ==> m.memberBytes <= MAX_STAGE - MAX_MANIFEST)
    && |p.encode(m)| <= MAX_MANIFEST && m.memberBytes + |p.encode(m)| <= MAX_STAGE
    && t == StagedTree(db, p.encode(m), originals, Expected(s.members.Keys))
    && r == ReceiptOf(p, m, p.encode(m))
  }

  // --------------------------------------------------------------- readback

  /** A regular file with the mode and within the size its role allows. */
  predicate FileRole(t: Tree, q: Path, mode: nat, cap: nat) {
    q in t && t[q].FileEntry? && t[q].mode == mode && |t[q].bytes| <= cap
  }

  predicate Sorted(p: Ports, list: seq<Listed>) {
    forall i, k | 0 <= i < |list| && 0 <= k < |list| && i < k ::
      list[i].name.Attachment? && (list[k].name.Attachment? ==> p.before(list[i].name.member, list[k].name.member))
  }

  /** What `_member_map` demands of the manifest's list. */
  predicate ListAccepted(p: Ports, list: seq<Listed>) {
    && 0 < |list| <= MAX_MEMBERS + 1 && Sorted(p, list)
    && list[|list| - 1].name == Database
    && forall i | 0 <= i < |list| :: list[i].size > 0 && IsDigest(list[i].sha)
  }

  predicate NamesMatch(list: seq<Listed>, members: set<Member>) {
    && (forall i | 0 <= i < |list| && list[i].name.Attachment? :: list[i].name.member in members)
    && (forall m | m in members :: exists i | 0 <= i < |list| :: list[i].name == Attachment(m))
  }

  /** A copied attachment agrees with the manifest and with the database's evidence. */
  predicate CopyAccepted(p: Ports, t: Tree, row: Listed, v: Value) {
    row.name.Attachment? ==>
      var q := PathOf(row.name);
      && row.sha == v.hash && (v.size.Some? ==> row.size == v.size.value)
      && FileRole(t, q, MEMBER_MODE, MAX_ATTACHMENT)
      && |t[q].bytes| == row.size && p.sha(t[q].bytes) == v.hash
      && p.detect(t[q].bytes) == Some((row.name.member.extension, v.mime))
  }

  predicate DirAccepted(t: Tree, paths: set<Path>, d: Path) {
    d in t && t[d] == DirEntry(DIR_MODE) && Names(t.Keys, d) == Names(paths, d)
  }

  predicate DatabaseAccepted(p: Ports, t: Tree, r: Receipt) {
    FileRole(t, PathOf(Database), FILE_MODE, MAX_DATABASE)
    && p.sha(t[PathOf(Database)].bytes) == r.dbSha && |t[PathOf(Database)].bytes| == r.dbSize
  }

  predicate TreeAccepted(t: Tree, members: set<Member>) {
    && (forall d | d in Dirs(members) :: DirAccepted(t, Expected(members), d))
    && (forall f | f in Files(members) :: f in t && t[f].FileEntry?)
  }

  predicate ManifestAccepted(p: Ports, identity: string, r: Receipt, m: Manifest, s: Snapshot) {
    && m.identity == identity && m.recordedAt == r.recordedAt && m.completedAt == r.completedAt && m.pointSha == r.dbSha
    && ListAccepted(p, m.members)
    && m.members[|m.members| - 1] == Listed(Database, r.dbSize, r.dbSha)
    && NamesMatch(m.members, s.members.Keys)
    && m.references == s.count == r.references && m.referenceSha == s.digest == r.referenceSha
    && m.memberCount == |m.members| == r.memberCount && m.memberBytes == Total(m.members) == r.memberBytes
    && m.database == DatabaseRow(r.dbSha, r.dbSize, r.pages, s.meta) && r.meta == s.meta
  }

  predicate CopiesAccepted(p: Ports, t: Tree, list: seq<Listed>, s: Snapshot) {
    forall i | 0 <= i < |list| && list[i].name.Attachment? && list[i].name.member in s.members ::
      CopyAccepted(p, t, list[i], s.members[list[i].name.member])
  }

  /** `verify_bundle`: the reader's decision on a staged tree and its receipt. */
  predicate Verified(p: Ports, identity: string, r: Receipt, t: Tree) {
    && FileRole(t, MANIFEST, FILE_MODE, MAX_MANIFEST)
    && var bytes := t[MANIFEST].bytes;
    && p.sha(bytes) == r.manifestSha && |bytes| == r.manifestSize
    && p.decode(bytes).Some? && p.encode(p.decode(bytes).value) == bytes
    && DatabaseAccepted(p, t, r)
    && p.read(t[PathOf(Database)].bytes).Some?
    && var m, s := p.decode(bytes).value, p.read(t[PathOf(Database)].bytes).value;
    && ManifestAccepted(p, identity, r, m, s)
    && CopiesAccepted(p, t, m.members, s)
    && TreeAccepted(t, s.members.Keys)
  }
}
