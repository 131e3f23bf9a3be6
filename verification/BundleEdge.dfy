/** The reference budget at its edge, on rows that a database can hold. */
module BundleEdge {
  import opened Prelude
  import opened BundleReferences
  import opened BundleInventory

  const ROOT := "/r"
  const REGISTRY := Registry(map[], map[], ROOT)

  /** Where the original with this digest is kept. */
  function PathOf(digest: string): (p: string)
    requires IsDigest(digest)
    ensures |p| == 74 && p[..3] == ROOT + "/" && p[3..5] == digest[..2] && p[5] == '/' && p[6..70] == digest
    ensures p[70..] == ".jpg"
  {
    ROOT + "/" + digest[..2] + "/" + digest + ".jpg"
  }

  function Decimal(n: nat): string {
    var digit := ('0' as int + n % 10) as char;
    if n < 10 then [digit] else Decimal(n / 10) + [digit]
  }

  lemma {:induction false} DecimalInjective(m: nat, n: nat)
    requires Decimal(m) == Decimal(n)
    ensures m == n
  {
    var s, t := Decimal(m), Decimal(n);
    assert s[|s| - 1] as int - '0' as int == m % 10 && t[|t| - 1] as int - '0' as int == n % 10;
    if m >= 10 && n >= 10 {
      assert Decimal(m / 10) == s[..|s| - 1] && Decimal(n / 10) == t[..|t| - 1];
      DecimalInjective(m / 10, n / 10);
    }
  }

  /** An intake record that names the original by its path and digest. */
  function Intake(digest: string, key: string): Claim
    requires IsDigest(digest)
  {
    Claim(Table("raw_intake_records"), key, "attachment_path", None, Some(PathOf(digest)), Some(digest), None, true)
  }

  /** A payment record that names it by its path alone. */
  function Payment(digest: string): Claim
    requires IsDigest(digest)
  {
    Claim(Table("payment_records"), "1", "attachment_path", None, Some(PathOf(digest)), None, None, true)
  }

  /** A record of either table without an attachment. */
  function Blank(table: string, key: string): Claim {
    Claim(Table(table), key, "attachment_path", None, None, None, None, true)
  }

  /** The intake records 1 to `n`. */
  function Intakes(digest: string, n: nat): (r: seq<Claim>)
    requires IsDigest(digest)
    ensures |r| == n && forall i | 0 <= i < n :: r[i] == Intake(digest, Decimal(i + 1))
  {
    if n == 0 then [] else Intakes(digest, n - 1) + [Intake(digest, Decimal(n))]
  }

  /** `n` intake records and a payment record, in the order in which the tables are read. */
  function Filled(digest: string, n: nat): (r: seq<Claim>)
    requires IsDigest(digest)
    ensures |r| == n + 1 && r[n] == Payment(digest)
    ensures forall i | 0 <= i < n :: r[i] == Intake(digest, Decimal(i + 1))
  {
    Intakes(digest, n) + [Payment(digest)]
  }

  /** The intake records are different records. */
  lemma IntakesDiffer(digest: string, n: nat, i: nat, k: nat)
    requires IsDigest(digest) && i < k < n
    ensures Intakes(digest, n)[i].key != Intakes(digest, n)[k].key
  {
    hide Decimal;
    if Decimal(i + 1) == Decimal(k + 1) { DecimalInjective(i + 1, k + 1); }
  }

  // -------------------------------------------------------------- resolving

  lemma {:induction false} ContainsAt(s: string, part: string)
    ensures Contains(s, part) ==> exists i :: 0 <= i <= |s| && part <= s[i..]
  {
    if Contains(s, part) {
      if part <= s {
        assert s[0..] == s;
      } else {
        ContainsAt(s[1..], part);
        var i :| 0 <= i <= |s[1..]| && part <= s[1..][i..];
        assert s[1..][i..] == s[i + 1..];
      }
    }
  }

  lemma PathChars(digest: string)
    requires IsDigest(digest)
    ensures var p := PathOf(digest);
            && p[0] == '/' && p[1] == 'r' && p[2] == '/' && p[3] == digest[0] && p[4] == digest[1]
            && (forall i | 0 <= i < 64 :: p[6 + i] == digest[i])
            && p[70] == '.' && p[71] == 'j' && p[72] == 'p' && p[73] == 'g'
  {
    hide PathOf;
    var p := PathOf(digest);
    assert p[0] == p[..3][0] && p[1] == p[..3][1] && p[2] == p[..3][2];
    assert p[3] == p[3..5][0] && p[4] == p[3..5][1];
    forall i | 0 <= i < 64 ensures p[6 + i] == digest[i] { assert p[6 + i] == p[6..70][i]; }
    assert p[70] == p[70..][0] && p[71] == p[70..][1] && p[72] == p[70..][2] && p[73] == p[70..][3];
  }

  /** No slash of the path is followed by a slash or a point. */
  lemma SlashThenName(digest: string, i: nat)
    requires IsDigest(digest) && i < 73
    ensures var p := PathOf(digest);
            p[i] == '/' ==> p[i + 1] != '/' && p[i + 1] != '.'
  {
    hide PathOf;
    PathChars(digest);
    var p := PathOf(digest);
    assert 6 <= i < 70 ==> p[i] == p[6 + (i - 6)] == digest[i - 6];
    assert p[6] == p[6 + 0] == digest[0];
  }

  lemma NoDots(digest: string, part: string)
    requires IsDigest(digest) && |part| >= 2 && part[0] == '/' && (part[1] == '/' || part[1] == '.')
    ensures !Contains(PathOf(digest), part)
  {
    hide Contains, PathOf;
    var p := PathOf(digest);
    ContainsAt(p, part);
    forall i | 0 <= i <= |p| ensures !(part <= p[i..]) {
      if i < 73 {
        assert p[i] == p[i..][0] && p[i + 1] == p[i..][1];
        SlashThenName(digest, i);
      }
    }
  }

  lemma PathNamesOriginal(digest: string)
    requires IsDigest(digest)
    ensures IsPath(PathOf(digest)) && MemberOf(PathOf(digest), ROOT, digest) == Some(Member(digest, Jpg))
  {
    hide Contains, PathOf;
    NoDots(digest, "//");
    NoDots(digest, "/./");
    NoDots(digest, "/../");
    var p := PathOf(digest);
    PathChars(digest);
    var rest := p[3..];
    assert p == ROOT + "/" + rest && rest[2] == p[5] && rest[..2] == p[3..5];
    assert rest[67] == p[70] && rest[68..] == "jpg";
    assert rest[3..67] == p[6..70];
    assert digest[..2] == rest[3..5];
  }

  function FactFor(digest: string, c: Claim): Fact {
    Fact(c.table, c.key, c.column, Member(digest, Jpg), digest, None)
  }

  predicate Known(digest: string, c: Claim)
    requires IsDigest(digest)
  {
    c == Intake(digest, c.key) || c == Payment(digest)
  }

  lemma RecordResolves(digest: string, claims: seq<Claim>, c: Claim)
    requires IsDigest(digest) && (forall x | x in claims :: Known(digest, x)) && claims != []
    requires claims[0] == Intake(digest, claims[0].key) && Known(digest, c)
    ensures Resolve(REGISTRY, claims, c) == Some(FactFor(digest, c))
  {
    hide MemberOf, PathOf, IsDigest;
    PathNamesOriginal(digest);
    assert Candidates(REGISTRY, c) == {};
    assert claims[0] in claims;
    assert PathHashes(claims, PathOf(digest)) == {digest};
    assert RecordedHashes(REGISTRY, claims, c) == {digest};
    assert RecordedSizes(REGISTRY, claims, c) == {};
  }

  /** The facts of these claims. */
  function Facts(digest: string, claims: seq<Claim>): (r: seq<Fact>)
    ensures |r| == |claims| && forall i | 0 <= i < |claims| :: r[i] == FactFor(digest, claims[i])
  {
    seq(|claims|, i requires 0 <= i < |claims| => FactFor(digest, claims[i]))
  }

  lemma {:induction false} AllKept(claims: seq<Claim>)
    requires forall c | c in claims :: !Empty(c)
    ensures Kept(claims) == claims
  {
    hide Empty;
    if claims != [] {
      var front, last := claims[..|claims| - 1], claims[|claims| - 1];
      AllKept(front);
      assert claims == front + [last] && last in claims;
    }
  }

  lemma FilledRegisters(digest: string, n: nat)
    requires IsDigest(digest) && n < MAX_REFERENCES
    ensures Registers(REGISTRY, Filled(digest, n)) && Kept(Filled(digest, n)) == Filled(digest, n)
  {
    var claims := Filled(digest, n);
    hide Filled, Decimal, IsPath, IsDigest;
    AllKept(claims);
    PathNamesOriginal(digest);
    RegistersExactly(REGISTRY, claims);
  }

  lemma FilledResolves(digest: string, n: nat)
    requires IsDigest(digest) && n > 0
    ensures FactsOf(REGISTRY, Filled(digest, n), Filled(digest, n), Facts(digest, Filled(digest, n)))
  {
    hide Filled, Facts, Decimal, Resolve, IsDigest, PathOf;
    var claims := Filled(digest, n);
    var facts := Facts(digest, claims);
    forall i | 0 <= i < |claims| ensures FactOf(REGISTRY, claims, claims[i], facts[i]) {
      RecordResolves(digest, claims, claims[i]);
    }
  }

  lemma OneMember(digest: string, claims: seq<Claim>) returns (members: map<Member, Value>)
    requires claims != []
    ensures MembersOf(Facts(digest, claims), members) && |members| == 1
  {
    hide Facts;
    var facts := Facts(digest, claims);
    members := map[facts[0].member := ValueOf(facts[0])];
  }

  lemma FilledCollected(digest: string, n: nat, coding: Coding) returns (v: Inventory)
    requires IsDigest(digest) && 0 < n < MAX_REFERENCES
    ensures Collected(REGISTRY, Filled(digest, n), coding, v) && |Kept(Filled(digest, n))| == n + 1
  {
    hide Filled, Facts, Registers, FactsOf, MembersOf, Kept, Lines, SortBytes, Payloads;
    FilledRegisters(digest, n);
    FilledResolves(digest, n);
    var facts := Facts(digest, Filled(digest, n));
    var members := OneMember(digest, Filled(digest, n));
    v := Inventory(members, facts, coding.sha(Lines(SortBytes(Payloads(coding, facts)))));
  }

  /** 65,535 intake records and a payment record fill the budget. With one more intake record that
      has no attachment they are collected as before; with one more such payment record, which is
      read last, they have no inventory. */
  lemma BlankAtTheEdge(digest: string, n: nat, at: nat, key: string, coding: Coding) returns (v: Inventory)
    requires IsDigest(digest) && n + 1 == MAX_REFERENCES && at <= n
    ensures var full := Filled(digest, n);
            && Collected(REGISTRY, full, coding, v)
            && Collected(REGISTRY, full[..at] + [Blank("raw_intake_records", key)] + full[at..], coding, v)
            && !exists w :: Collected(REGISTRY, full + [Blank("payment_records", key)], coding, w)
  {
    hide Filled, Collected, Kept;
    v := FilledCollected(digest, n, coding);
    var full := Filled(digest, n);
    assert full[..at] + full[at..] == full;
    EmptyClaimAtTheEdge(REGISTRY, full[..at], full[at..], Blank("raw_intake_records", key), coding, v);
    EmptyClaimAtTheEdge(REGISTRY, full[..at], full[at..], Blank("payment_records", key), coding, v);
  }
}
