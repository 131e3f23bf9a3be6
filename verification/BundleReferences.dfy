/** References to original files, gathered from many tables and resolved to one inventory. */
module BundleReferences {
  import opened Prelude

  const MAX_REFERENCES := 65_536
  const MAX_MEMBERS := 4096

  datatype Extension = Jpg | Png | Pdf

  datatype Mime = Jpeg | PngImage | PdfDocument | OtherMime

  function MimeOf(e: Extension): Mime {
    match e case Jpg => Jpeg case Png => PngImage case Pdf => PdfDocument
  }

  /** `attachments/<first two digits>/<digest>.<extension>`. */
  datatype Member = Member(digest: string, extension: Extension)

  /** The table of local workspace copies has a rule of its own. */
  datatype Table = LocalSource | Table(name: string)

  /** One row's reference: an attachment id, a path, and what the row says of the content. */
  datatype Claim = Claim(
    table: Table, key: string, column: string, aid: Option<int>, path: Option<string>,
    digest: Option<string>, size: Option<nat>, alias: bool)

  datatype Declared = Declared(path: string, mime: Option<Mime>)

  /** The attachment rows by id, the Telegram aliases of each, and the managed root. */
  datatype Registry = Registry(declared: map<int, Declared>, aliases: map<int, set<string>>, root: string)

  // ------------------------------------------------------------ registering

  predicate IsHex(c: char) { '0' <= c <= '9' || 'a' <= c <= 'f' }

  predicate IsDigest(s: string) { |s| == 64 && forall i | 0 <= i < 64 :: IsHex(s[i]) }

  /** The characters that `str.strip` removes. */
  predicate IsSpace(c: char) {
    var n := c as int;
    || 9 <= n <= 13 || 28 <= n <= 32 || n == 0x85 || n == 0xA0 || n == 0x1680 || 0x2000 <= n <= 0x200A
    || n == 0x2028 || n == 0x2029 || n == 0x202F || n == 0x205F || n == 0x3000
  }

  /** `_require_path`: a path is not empty and has no space around it. */
  predicate IsPath(s: string) {
    s != "" && !IsSpace(s[0]) && !IsSpace(s[|s| - 1])
  }

  /** What `claim` demands of a reference before it is kept. */
  predicate Sound(reg: Registry, c: Claim) {
    && (c.aid.Some? ==> c.aid.value in reg.declared && c.aid.value in reg.aliases)
    && (c.path.Some? ==> IsPath(c.path.value))
    && (c.digest.Some? ==> IsDigest(c.digest.value))
    && (c.aid.None? && c.path.None? ==> c.digest.None? && c.size.None?)
  }

  /** A reference that names neither an id nor a path says nothing and is dropped. */
  predicate Empty(c: Claim) {
    c.aid.None? && c.path.None?
  }

  // -------------------------------------------------------------- members

  predicate Contains(s: string, part: string) {
    part <= s || (s != [] && Contains(s[1..], part))
  }

  function ExtensionOf(s: string): Option<Extension> {
    if s == "jpg" then Some(Jpg) else if s == "png" then Some(Png) else if s == "pdf" then Some(Pdf) else None
  }

  /** The canonical member a path names below the root: a two-digit shard, the digest it starts
      with, and an extension. */
  function MemberOf(path: string, root: string, hash: string): Option<Member> {
    var prefix := root + "/";
    if !(prefix <= path) || Contains(path, "//") || Contains(path, "/./") || Contains(path, "/../") then None
    else
      var rest := path[|prefix|..];
      if |rest| != 71 || rest[2] != '/' || rest[67] != '.' || !IsDigest(rest[3..67]) then None
      else if ExtensionOf(rest[68..]).None? then None
      else if rest[3..5] != rest[..2] || rest[3..67] != hash then None
      else Some(Member(hash, ExtensionOf(rest[68..]).value))
  }

  // ------------------------------------------------------------- resolving

  /** Everything the claims say about attachment `aid`, and about path `p`. */
  function HashesOf(claims: seq<Claim>, aid: int): set<string> {
    set c | c in claims && c.aid == Some(aid) && c.digest.Some? :: c.digest.value
  }

  function SizesOf(claims: seq<Claim>, aid: int): set<nat> {
    set c | c in claims && c.aid == Some(aid) && c.size.Some? :: c.size.value
  }

  function PathHashes(claims: seq<Claim>, p: string): set<string> {
    set c | c in claims && c.path == Some(p) && c.digest.Some? :: c.digest.value
  }

  function PathSizes(claims: seq<Claim>, p: string): set<nat> {
    set c | c in claims && c.path == Some(p) && c.size.Some? :: c.size.value
  }

  /** The attachments a claim is about: its own id, or every attachment declared at its path. */
  function Candidates(reg: Registry, c: Claim): set<int> {
    if c.aid.Some? then {c.aid.value}
    else set id | id in reg.declared && c.path == Some(reg.declared[id].path)
  }

  /** The claim's path is the canonical one, so what is said of the path is said of the original. */
  predicate OwnPath(reg: Registry, c: Claim) {
    c.path.Some? && (c.aid.None? || (c.aid.value in reg.declared && reg.declared[c.aid.value].path == c.path.value))
  }

  function RecordedHashes(reg: Registry, claims: seq<Claim>, c: Claim): set<string> {
    (set id, h | id in Candidates(reg, c) && h in HashesOf(claims, id) :: h)
    + (if c.digest.Some? then {c.digest.value} else {})
    + (if OwnPath(reg, c) then PathHashes(claims, c.path.value) else {})
  }

  function RecordedSizes(reg: Registry, claims: seq<Claim>, c: Claim): set<nat> {
    (set id, n | id in Candidates(reg, c) && n in SizesOf(claims, id) :: n)
    + (if c.size.Some? then {c.size.value} else {})
    + (if OwnPath(reg, c) then PathSizes(claims, c.path.value) else {})
  }

  datatype Fact = Fact(table: Table, key: string, column: string, member: Member, hash: string, size: Option<nat>)

  datatype Value = Value(hash: string, size: Option<nat>, mime: Mime)

  function ValueOf(f: Fact): Value { Value(f.hash, f.size, MimeOf(f.member.extension)) }

  /** The path of the original: the declared one when there is a candidate. */
  function CanonicalPath(reg: Registry, c: Claim): string
    requires !Empty(c)
  {
    if c.aid.Some? && c.aid.value in reg.declared then reg.declared[c.aid.value].path
    else if c.path.Some? then c.path.value else ""
  }

  predicate Bound(reg: Registry, c: Claim)
    requires !Empty(c)
  {
    c.aid.Some? && c.path.Some? && c.path.value != CanonicalPath(reg, c) ==>
      c.alias && c.aid.value in reg.aliases && c.path.value in reg.aliases[c.aid.value]
  }

  predicate LocalSourceBound(reg: Registry, c: Claim)
    requires !Empty(c)
  {
    c.aid.Some? && c.table == LocalSource ==> c.path == Some(CanonicalPath(reg, c))
  }

  lemma OneElement<T>(s: set<T>, x: T, y: T)
    requires |s| == 1 && x in s && y in s
    ensures x == y
  {
    assert |s - {x}| == 0;
    assert x != y ==> y in s - {x};
  }

  /** The element of a one-element set. */
  function The<T>(s: set<T>): (x: T)
    requires |s| == 1
    ensures s == {x}
  {
    assert s != {};
    assert forall x, y | x in s && y in s :: x == y by {
      forall x, y | x in s && y in s ensures x == y { OneElement(s, x, y); }
    }
    var x :| x in s;
    x
  }

  /** The fact a claim resolves to among all the claims, if it resolves. */
  function Resolve(reg: Registry, claims: seq<Claim>, c: Claim): Option<Fact>
    requires !Empty(c)
  {
    ResolveWith(reg, c, RecordedHashes(reg, claims, c), RecordedSizes(reg, claims, c))
  }

  function ResolveWith(reg: Registry, c: Claim, hashes: set<string>, sizes: set<nat>): Option<Fact>
    requires !Empty(c)
  {
    if !Bound(reg, c) || |hashes| != 1 then None
    else
      var hash := The(hashes);
      var member := MemberOf(CanonicalPath(reg, c), reg.root, hash);
      if member.None? || !LocalSourceBound(reg, c) || |sizes| > 1 then None
      else if exists id | id in Candidates(reg, c) && id in reg.declared ::
                reg.declared[id].mime.Some? && reg.declared[id].mime.value != MimeOf(member.value.extension) then None
      else
        Some(Fact(c.table, c.key, c.column, member.value, hash, if |sizes| == 1 then Some(The(sizes)) else None))
  }
}
