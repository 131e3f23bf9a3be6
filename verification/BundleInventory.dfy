/** The inventory of a snapshot: registering, resolving, and what does not depend on row order. */
module BundleInventory {
  import opened Prelude
  import opened Bytes
  import opened BundleReferences

  // ----------------------------------------------------------- registering

  /** The claims that are kept, in order. */
  function Kept(raw: seq<Claim>): seq<Claim> {
    if raw == [] then []
    else
      var front, last := Kept(raw[..|raw| - 1]), raw[|raw| - 1];
      if Empty(last) then front else front + [last]
  }

  lemma {:induction false} KeptMembers(raw: seq<Claim>)
    ensures forall c :: c in Kept(raw) <==> c in raw && !Empty(c)
  {
    hide Empty;
    if raw != [] {
      KeptMembers(raw[..|raw| - 1]);
      assert raw == raw[..|raw| - 1] + [raw[|raw| - 1]];
    }
  }

  /** Every claim is sound and is reached before the budget of kept claims is used up. */
  predicate Registers(reg: Registry, raw: seq<Claim>) {
    (forall c | c in raw :: Sound(reg, c)) && (forall i | 0 <= i < |raw| :: |Kept(raw[..i])| < MAX_REFERENCES)
  }

  lemma {:induction false} KeptGrows(raw: seq<Claim>, i: nat)
    requires i <= |raw|
    ensures |Kept(raw[..i])| <= |Kept(raw)|
    ensures i < |raw| && !Empty(raw[|raw| - 1]) ==> |Kept(raw[..i])| < |Kept(raw)|
    decreases |raw|
  {
    if i < |raw| {
      var front := raw[..|raw| - 1];
      assert front[..i] == raw[..i];
      KeptGrows(front, i);
    } else {
      assert raw[..i] == raw;
    }
  }

  /** The budget is one of kept claims, but it is tested at every claim: exactly as many as it
      allows pass only if nothing, not even an empty claim, comes after the last of them. */
  lemma RegistersExactly(reg: Registry, raw: seq<Claim>)
    requires raw != []
    ensures Registers(reg, raw) <==>
              && (forall c | c in raw :: Sound(reg, c))
              && (|Kept(raw)| < MAX_REFERENCES || (|Kept(raw)| == MAX_REFERENCES && !Empty(raw[|raw| - 1])))
  {
    forall i | 0 <= i < |raw|
      ensures |Kept(raw[..i])| <= |Kept(raw)| && (!Empty(raw[|raw| - 1]) ==> |Kept(raw[..i])| < |Kept(raw)|) {
      KeptGrows(raw, i);
    }
    var front := raw[..|raw| - 1];
    assert |Kept(raw)| <= |Kept(front)| + 1;
  }

  lemma KeptNone()
    ensures Kept([]) == []
  {
  }

  lemma KeptStep(raw: seq<Claim>, c: Claim)
    ensures Kept(raw + [c]) == if Empty(c) then Kept(raw) else Kept(raw) + [c]
  {
    assert (raw + [c])[..|raw|] == raw;
  }

  method Register(reg: Registry, raw: seq<Claim>) returns (r: Option<seq<Claim>>)
    ensures r.Some? <==> Registers(reg, raw)
    ensures r.Some? ==> r.value == Kept(raw)
  {
    hide Sound, Empty, Kept;
    KeptNone();
    var claims := [];
    var i := 0;
    while i < |raw|
      invariant 0 <= i <= |raw|
      invariant claims == Kept(raw[..i])
      invariant forall c | c in raw[..i] :: Sound(reg, c)
      invariant forall k | 0 <= k < i :: |Kept(raw[..k])| < MAX_REFERENCES
    {
      var c := raw[i];
      if |claims| >= MAX_REFERENCES || !Sound(reg, c) { return None; }
      assert raw[..i + 1] == raw[..i] + [c];
      KeptStep(raw[..i], c);
      if !Empty(c) { claims := claims + [c]; }
      i := i + 1;
    }
    assert raw[..i] == raw;
    return Some(claims);
  }

  // ------------------------------------------------------------- resolving

  /** Each claim with the fact it resolves to, among the claims of `all`. */
  ghost predicate FactsOf(reg: Registry, all: seq<Claim>, claims: seq<Claim>, facts: seq<Fact>) {
    && |facts| == |claims| && (forall c | c in claims :: !Empty(c))
    && forall i | 0 <= i < |claims| :: FactOf(reg, all, claims[i], facts[i])
  }

  ghost predicate FactOf(reg: Registry, all: seq<Claim>, c: Claim, f: Fact) {
    !Empty(c) && Resolve(reg, all, c) == Some(f)
  }

  ghost predicate MembersOf(facts: seq<Fact>, members: map<Member, Value>) {
    && (forall i | 0 <= i < |facts| :: facts[i].member in members && members[facts[i].member] == ValueOf(facts[i]))
    && (forall m | m in members :: exists i :: 0 <= i < |facts| && facts[i].member == m)
  }

  datatype Inventory = Inventory(members: map<Member, Value>, facts: seq<Fact>, digest: string)

  /** The encodings: a fact as canonical JSON, and the digest of a byte string. */
  datatype Coding = Coding(json: Fact -> ByteString, sha: ByteString -> string)

  ghost predicate Collected(reg: Registry, raw: seq<Claim>, coding: Coding, v: Inventory) {
    && Registers(reg, raw)
    && FactsOf(reg, Kept(raw), Kept(raw), v.facts)
    && MembersOf(v.facts, v.members)
    && |v.members| <= MAX_MEMBERS
    && v.digest == coding.sha(Lines(SortBytes(Payloads(coding, v.facts))))
  }

  method ResolveAll(reg: Registry, claims: seq<Claim>) returns (r: Option<(map<Member, Value>, seq<Fact>)>)
    requires forall c | c in claims :: !Empty(c)
    ensures r.Some? ==> FactsOf(reg, claims, claims, r.value.1) && MembersOf(r.value.1, r.value.0)
    ensures r.None? ==> !exists facts, members :: FactsOf(reg, claims, claims, facts) && MembersOf(facts, members)
  {
    hide Resolve, Empty, ValueOf;
    var members: map<Member, Value>, facts: seq<Fact> := map[], [];
    var i := 0;
    while i < |claims|
      invariant 0 <= i <= |claims| && |facts| == i
      invariant forall k | 0 <= k < i :: FactOf(reg, claims, claims[k], facts[k])
      invariant MembersOf(facts, members)
    {
      var resolved := Resolve(reg, claims, claims[i]);
      if resolved.None? {
        AllResolve(reg, claims, i);
        return None;
      }
      var f := resolved.value;
      if f.member in members && members[f.member] != ValueOf(f) {
        var k :| 0 <= k < |facts| && facts[k].member == f.member;
        OneValuePerMember(reg, claims, k, facts[k], i, f);
        return None;
      }
      MemberAdded(facts, members, f);
      members, facts := members[f.member := ValueOf(f)], facts + [f];
      i := i + 1;
    }
    return Some((members, facts));
  }

  lemma AllResolve(reg: Registry, claims: seq<Claim>, i: nat)
    requires i < |claims| && !Empty(claims[i])
    ensures (exists fs :: FactsOf(reg, claims, claims, fs)) ==> Resolve(reg, claims, claims[i]).Some?
  {
    hide Resolve, Empty;
    if exists fs :: FactsOf(reg, claims, claims, fs) {
      var fs :| FactsOf(reg, claims, claims, fs);
      assert FactOf(reg, claims, claims[i], fs[i]);
    }
  }

  lemma OneValuePerMember(reg: Registry, claims: seq<Claim>, k: nat, f: Fact, i: nat, g: Fact)
    requires k < |claims| && i < |claims| && f.member == g.member
    requires FactOf(reg, claims, claims[k], f) && FactOf(reg, claims, claims[i], g)
    ensures (exists fs, ms :: FactsOf(reg, claims, claims, fs) && MembersOf(fs, ms)) ==> ValueOf(f) == ValueOf(g)
  {
    hide Resolve, ValueOf, Empty;
    forall fs, ms | FactsOf(reg, claims, claims, fs) && MembersOf(fs, ms) ensures ValueOf(f) == ValueOf(g) {
      assert FactOf(reg, claims, claims[k], fs[k]);
      assert FactOf(reg, claims, claims[i], fs[i]);
    }
  }

  lemma MemberAdded(facts: seq<Fact>, members: map<Member, Value>, f: Fact)
    requires MembersOf(facts, members) && (f.member in members ==> members[f.member] == ValueOf(f))
    ensures MembersOf(facts + [f], members[f.member := ValueOf(f)])
  {
    var grown, more := members[f.member := ValueOf(f)], facts + [f];
    forall m | m in grown ensures exists i :: 0 <= i < |more| && more[i].member == m {
      if m == f.member {
        assert more[|facts|].member == m;
      } else {
        var i :| 0 <= i < |facts| && facts[i].member == m;
        assert more[i].member == m;
      }
    }
  }

  /** The whole collection; it fails exactly when there is no inventory of these claims. */
  method CollectReferences(reg: Registry, raw: seq<Claim>, coding: Coding) returns (r: Option<Inventory>)
    ensures r.Some? ==> Collected(reg, raw, coding, r.value)
    ensures r.None? ==> !exists v :: Collected(reg, raw, coding, v)
  {
    hide Registers, FactsOf, MembersOf, SortBytes, Payloads, Lines;
    var claims := Register(reg, raw);
    if claims.None? { return None; }
    KeptMembers(raw);
    var resolved := ResolveAll(reg, claims.value);
    if resolved.None? { return None; }
    var (members, facts) := resolved.value;
    if |members| > MAX_MEMBERS {
      forall v | Collected(reg, raw, coding, v) ensures v.members == members {
        SameFacts(reg, Kept(raw), Kept(raw), facts, v.facts);
        SameMembers(facts, members, v.members);
      }
      return None;
    }
    var digest := coding.sha(Lines(SortBytes(Payloads(coding, facts))));
    return Some(Inventory(members, facts, digest));
  }

  lemma SameFacts(reg: Registry, all: seq<Claim>, claims: seq<Claim>, a: seq<Fact>, b: seq<Fact>)
    requires FactsOf(reg, all, claims, a) && FactsOf(reg, all, claims, b)
    ensures a == b
  {
    forall i | 0 <= i < |a| ensures a[i] == b[i] {
      assert FactOf(reg, all, claims[i], a[i]) && FactOf(reg, all, claims[i], b[i]);
    }
  }

  lemma SameMembers(facts: seq<Fact>, a: map<Member, Value>, b: map<Member, Value>)
    requires MembersOf(facts, a) && MembersOf(facts, b)
    ensures a == b
  {
  }

  // -------------------------------------------------------------- agreement

  /** The digest in a member's path is the hash it was resolved with. */
  lemma MemberNamesHash(path: string, root: string, hash: string)
    ensures var m := MemberOf(path, root, hash);
            m.Some? ==> && m.value.digest == hash && IsDigest(hash)
                        && |path| == |root| + 72 && path[|root| + 4..|root| + 68] == hash
                        && path[|root| + 1..|root| + 3] == hash[..2]
  {
    var prefix := root + "/";
    if MemberOf(path, root, hash).Some? {
      var rest := path[|prefix|..];
      assert path[|root| + 4..|root| + 68] == rest[3..67];
      assert path[|root| + 1..|root| + 3] == rest[..2] && rest[3..5] == rest[3..67][..2];
    }
  }

  /** What one claim asserts is what its fact records. */
  lemma FactAgrees(reg: Registry, all: seq<Claim>, c: Claim, f: Fact)
    requires FactOf(reg, all, c, f)
    ensures f.table == c.table && f.key == c.key && f.column == c.column
    ensures f.member.digest == f.hash && IsDigest(f.hash)
    ensures c.digest.Some? ==> c.digest.value == f.hash
    ensures c.size.Some? ==> f.size == c.size
    ensures c.aid.Some? ==> forall h | h in HashesOf(all, c.aid.value) :: h == f.hash
  {
    hide MemberOf;
    var hashes, sizes := RecordedHashes(reg, all, c), RecordedSizes(reg, all, c);
    assert hashes == {f.hash};
    MemberNamesHash(CanonicalPath(reg, c), reg.root, f.hash);
    if c.size.Some? {
      assert c.size.value in sizes;
      assert sizes != {};
      assert |sizes| == 1;
    }
    if c.aid.Some? {
      forall h | h in HashesOf(all, c.aid.value) ensures h == f.hash {
        assert c.aid.value in Candidates(reg, c);
        assert h in hashes;
      }
    }
  }

  /** Every kept claim has one member, and every digest or size asserted by any claim on that
      member is the one recorded there, which is also the digest in the member's path. */
  lemma ClaimsAgreeOnMembers(reg: Registry, raw: seq<Claim>, coding: Coding, v: Inventory, i: nat)
    requires Collected(reg, raw, coding, v) && i < |Kept(raw)|
    ensures |v.facts| == |Kept(raw)|
    ensures var c, f := Kept(raw)[i], v.facts[i];
            && f.table == c.table && f.key == c.key && f.column == c.column
            && f.member in v.members && v.members[f.member].hash == f.member.digest
            && (c.digest.Some? ==> c.digest.value == v.members[f.member].hash)
            && (c.size.Some? ==> c.size == v.members[f.member].size)
            && v.members[f.member].mime == MimeOf(f.member.extension)
  {
    hide SortBytes, Payloads, Lines, Registers, Resolve;
    FactAgrees(reg, Kept(raw), Kept(raw)[i], v.facts[i]);
  }

  // ------------------------------------------------------- order of the rows

  lemma SameMembership(a: seq<Claim>, b: seq<Claim>)
    requires multiset(a) == multiset(b)
    ensures |a| == |b| && forall c :: c in a <==> c in b
  {
    assert |multiset(a)| == |a| && |multiset(b)| == |b|;
    forall c ensures c in a <==> c in b { assert c in multiset(a) <==> c in multiset(b); }
  }

  lemma {:induction false} KeptMultiset(raw: seq<Claim>, c: Claim)
    ensures multiset(Kept(raw))[c] == if Empty(c) then 0 else multiset(raw)[c]
  {
    hide Empty;
    if raw != [] {
      var front, last := raw[..|raw| - 1], raw[|raw| - 1];
      assert raw == front + [last];
      KeptMultiset(front, c);
    }
  }

  lemma KeptSameMultiset(a: seq<Claim>, b: seq<Claim>)
    requires multiset(a) == multiset(b)
    ensures multiset(Kept(a)) == multiset(Kept(b))
  {
    hide Kept;
    forall c ensures multiset(Kept(a))[c] == multiset(Kept(b))[c] {
      KeptMultiset(a, c);
      KeptMultiset(b, c);
    }
  }

  lemma ResolveSame(reg: Registry, a: seq<Claim>, b: seq<Claim>, c: Claim)
    requires (forall x :: x in a <==> x in b) && !Empty(c)
    ensures Resolve(reg, a, c) == Resolve(reg, b, c)
  {
    hide ResolveWith, RecordedHashes, RecordedSizes;
    RecordedSame(reg, a, b, c);
  }

  lemma RecordedSame(reg: Registry, a: seq<Claim>, b: seq<Claim>, c: Claim)
    requires forall x :: x in a <==> x in b
    ensures RecordedHashes(reg, a, c) == RecordedHashes(reg, b, c)
    ensures RecordedSizes(reg, a, c) == RecordedSizes(reg, b, c)
  {
    SaidSame(a, b);
    hide Candidates, HashesOf, SizesOf, PathHashes, PathSizes;
  }

  lemma SaidSame(a: seq<Claim>, b: seq<Claim>)
    requires forall x :: x in a <==> x in b
    ensures forall id: int :: HashesOf(a, id) == HashesOf(b, id) && SizesOf(a, id) == SizesOf(b, id)
    ensures forall p: string :: PathHashes(a, p) == PathHashes(b, p) && PathSizes(a, p) == PathSizes(b, p)
  {
  }

  /** Removing position `k`. */
  function Without<T>(s: seq<T>, k: nat): seq<T>
    requires k < |s|
  {
    s[..k] + s[k + 1..]
  }

  lemma WithoutMultiset<T>(s: seq<T>, k: nat)
    requires k < |s|
    ensures multiset(s) == multiset(Without(s, k)) + multiset{s[k]}
  {
    assert s == s[..k] + [s[k]] + s[k + 1..];
  }

  lemma RemoveBoth<T>(a: seq<T>, i: nat, b: seq<T>, k: nat)
    requires multiset(a) == multiset(b) && i < |a| && k < |b| && a[i] == b[k]
    ensures multiset(Without(a, i)) == multiset(Without(b, k))
  {
    WithoutMultiset(a, i);
    WithoutMultiset(b, k);
    assert multiset(Without(a, i)) == multiset(a) - multiset{a[i]};
    assert multiset(Without(b, k)) == multiset(b) - multiset{b[k]};
  }

  lemma {:induction false} FactsSameMultiset(reg: Registry, all: seq<Claim>, a: seq<Claim>, fa: seq<Fact>,
                                             b: seq<Claim>, fb: seq<Fact>)
    requires FactsOf(reg, all, a, fa) && FactsOf(reg, all, b, fb) && multiset(a) == multiset(b)
    ensures multiset(fa) == multiset(fb)
    decreases |a|
  {
    hide Resolve, Empty;
    SameMembership(a, b);
    if a != [] {
      assert a[0] in b;
      var k :| 0 <= k < |b| && b[k] == a[0];
      assert FactOf(reg, all, a[0], fa[0]) && FactOf(reg, all, b[k], fb[k]);
      RemoveBoth(a, 0, b, k);
      WithoutMultiset(fa, 0);
      WithoutMultiset(fb, k);
      FactsWithout(reg, all, a, fa, 0);
      FactsWithout(reg, all, b, fb, k);
      FactsSameMultiset(reg, all, Without(a, 0), Without(fa, 0), Without(b, k), Without(fb, k));
    }
  }

  lemma FactsWithout(reg: Registry, all: seq<Claim>, a: seq<Claim>, fa: seq<Fact>, k: nat)
    requires FactsOf(reg, all, a, fa) && k < |a|
    ensures FactsOf(reg, all, Without(a, k), Without(fa, k))
  {
    hide FactOf, Empty;
    var c, f := Without(a, k), Without(fa, k);
    forall i | 0 <= i < |c| ensures FactOf(reg, all, c[i], f[i]) {
      var at := if i < k then i else i + 1;
      assert c[i] == a[at] && f[i] == fa[at];
    }
  }

  lemma MembersSameMultiset(fa: seq<Fact>, ma: map<Member, Value>, fb: seq<Fact>, mb: map<Member, Value>)
    requires MembersOf(fa, ma) && MembersOf(fb, mb) && multiset(fa) == multiset(fb)
    ensures ma == mb
  {
    forall f: Fact ensures f in fa <==> f in fb { assert f in multiset(fa) <==> f in multiset(fb); }
    forall m | m in ma ensures m in mb && mb[m] == ma[m] {
      var i :| 0 <= i < |fa| && fa[i].member == m;
      assert fa[i] in fb;
    }
    forall m | m in mb ensures m in ma {
      var i :| 0 <= i < |fb| && fb[i].member == m;
      assert fb[i] in fa;
    }
  }

  /** Rows in another order give the same members, the same facts up to order, and the same digest. */
  lemma RowOrderDoesNotMatter(reg: Registry, a: seq<Claim>, b: seq<Claim>, coding: Coding, v: Inventory, w: Inventory)
    requires multiset(a) == multiset(b) && Collected(reg, a, coding, v) && Collected(reg, b, coding, w)
    ensures v.members == w.members && multiset(v.facts) == multiset(w.facts) && v.digest == w.digest
  {
    hide Registers, Resolve, Kept, SortBytes, Payloads, Lines, MembersOf;
    KeptSameMultiset(a, b);
    SameMembership(Kept(a), Kept(b));
    FactsElsewhere(reg, Kept(b), Kept(a), Kept(b), w.facts);
    FactsSameMultiset(reg, Kept(a), Kept(a), v.facts, Kept(b), w.facts);
    MembersSameMultiset(v.facts, v.members, w.facts, w.members);
    PayloadsSameMultiset(coding, v.facts, w.facts);
    SortSame(Payloads(coding, v.facts), Payloads(coding, w.facts));
  }

  /** and, among orders that stay within the budget, one succeeds exactly when the other does. */
  lemma RowOrderKeepsSuccess(reg: Registry, a: seq<Claim>, b: seq<Claim>, coding: Coding,
                             v: Inventory) returns (w: Inventory)
    requires multiset(a) == multiset(b) && Collected(reg, a, coding, v) && Registers(reg, b)
    ensures Collected(reg, b, coding, w)
  {
    hide Registers, Resolve, Kept, SortBytes, Payloads, Lines, Empty;
    KeptSameMultiset(a, b);
    SameMembership(Kept(a), Kept(b));
    KeptMembers(b);
    FactsElsewhere(reg, Kept(a), Kept(b), Kept(a), v.facts);
    var claims := Kept(b);
    forall i | 0 <= i < |claims| ensures Resolve(reg, claims, claims[i]).Some? {
      assert claims[i] in Kept(a);
      var k :| 0 <= k < |Kept(a)| && Kept(a)[k] == claims[i];
      assert FactOf(reg, claims, Kept(a)[k], v.facts[k]);
    }
    var facts := seq(|claims|, i requires 0 <= i < |claims| && !Empty(claims[i])
                                          && Resolve(reg, claims, claims[i]).Some? =>
                       Resolve(reg, claims, claims[i]).value);
    assert FactsOf(reg, claims, claims, facts);
    FactsSameMultiset(reg, claims, Kept(a), v.facts, claims, facts);
    MembersMove(v.facts, facts, v.members);
    w := Inventory(v.members, facts, coding.sha(Lines(SortBytes(Payloads(coding, facts)))));
  }

  lemma MembersMove(a: seq<Fact>, b: seq<Fact>, members: map<Member, Value>)
    requires MembersOf(a, members) && multiset(a) == multiset(b)
    ensures MembersOf(b, members)
  {
    forall f: Fact ensures f in a <==> f in b { assert f in multiset(a) <==> f in multiset(b); }
    forall m | m in members ensures exists i :: 0 <= i < |b| && b[i].member == m {
      var i :| 0 <= i < |a| && a[i].member == m;
      assert a[i] in b;
    }
    forall i | 0 <= i < |b| ensures b[i].member in members && members[b[i].member] == ValueOf(b[i]) {
      assert b[i] in a;
    }
  }

  lemma FactsElsewhere(reg: Registry, all: seq<Claim>, other: seq<Claim>, claims: seq<Claim>, facts: seq<Fact>)
    requires FactsOf(reg, all, claims, facts) && forall c :: c in all <==> c in other
    ensures FactsOf(reg, other, claims, facts)
  {
    hide Resolve, Empty;
    forall i | 0 <= i < |claims| ensures FactOf(reg, other, claims[i], facts[i]) {
      assert FactOf(reg, all, claims[i], facts[i]);
      ResolveSame(reg, all, other, claims[i]);
    }
  }

  lemma {:induction false} KeptJoin(a: seq<Claim>, b: seq<Claim>)
    ensures Kept(a + b) == Kept(a) + Kept(b)
    decreases |b|
  {
    hide Kept, Empty;
    if b == [] {
      KeptNone();
      assert a + b == a;
    } else {
      var front, last := b[..|b| - 1], b[|b| - 1];
      KeptJoin(a, front);
      assert a + b == (a + front) + [last] && b == front + [last];
      KeptStep(a + front, last);
      KeptStep(front, last);
    }
  }

  lemma KeptEmpty(empty: Claim)
    requires Empty(empty)
    ensures Kept([empty]) == []
  {
    hide Kept;
    KeptNone();
    KeptStep([], empty);
    assert [] + [empty] == [empty];
  }

  /** Exactly when another order of collected claims fails: the budget is used up and an empty claim
      comes last. */
  lemma RowOrderDecides(reg: Registry, a: seq<Claim>, b: seq<Claim>, coding: Coding, v: Inventory)
    requires multiset(a) == multiset(b) && b != [] && Collected(reg, a, coding, v)
    ensures (exists w :: Collected(reg, b, coding, w)) <==>
              |Kept(b)| < MAX_REFERENCES || !Empty(b[|b| - 1])
  {
    KeptSameMultiset(a, b);
    SameMembership(a, b);
    assert |Kept(a)| == |multiset(Kept(a))| == |Kept(b)|;
    RegistersExactly(reg, a);
    RegistersExactly(reg, b);
    hide Registers, FactsOf, MembersOf, Kept, Lines, SortBytes, Payloads, Sound, Empty;
    if Registers(reg, b) {
      var w := RowOrderKeepsSuccess(reg, a, b, coding, v);
    }
  }

  /** So wherever the claims fill the budget, an empty claim is harmless anywhere before the last of
      them and fatal after it. */
  lemma EmptyClaimAtTheEdge(reg: Registry, before: seq<Claim>, after: seq<Claim>, empty: Claim, coding: Coding,
                            v: Inventory)
    requires Collected(reg, before + after, coding, v) && |Kept(before + after)| == MAX_REFERENCES && after != []
    requires Sound(reg, empty) && Empty(empty)
    ensures multiset(before + [empty] + after) == multiset(before + after + [empty])
    ensures Collected(reg, before + [empty] + after, coding, v)
    ensures !exists w :: Collected(reg, before + after + [empty], coding, w)
  {
    hide Kept, Sound, Empty, Registers, FactsOf, MembersOf, Lines, SortBytes, Payloads;
    KeptAround(before, after, empty);
    RegistersAround(reg, before, after, empty);
    assert multiset(before + [empty] + after) == multiset(before) + multiset([empty]) + multiset(after);
    assert multiset(before + after + [empty]) == multiset(before) + multiset(after) + multiset([empty]);
  }

  lemma KeptAround(before: seq<Claim>, after: seq<Claim>, empty: Claim)
    requires Empty(empty)
    ensures Kept(before + [empty] + after) == Kept(before + after) == Kept(before + after + [empty])
  {
    hide Kept, Empty;
    KeptEmpty(empty);
    KeptJoin(before, after);
    KeptJoin(before, [empty]);
    KeptJoin(before + [empty], after);
    KeptJoin(before + after, [empty]);
    assert Kept(before) + [] == Kept(before);
    assert Kept(before + after) + [] == Kept(before + after);
  }

  lemma RegistersAround(reg: Registry, before: seq<Claim>, after: seq<Claim>, empty: Claim)
    requires Registers(reg, before + after) && |Kept(before + after)| == MAX_REFERENCES && after != []
    requires Sound(reg, empty) && Empty(empty)
    ensures Registers(reg, before + [empty] + after) && !Registers(reg, before + after + [empty])
  {
    var full, within, beyond := before + after, before + [empty] + after, before + after + [empty];
    KeptAround(before, after, empty);
    RegistersExactly(reg, full);
    RegistersExactly(reg, within);
    RegistersExactly(reg, beyond);
    assert forall c | c in full :: Sound(reg, c);
    hide Kept, Sound, Empty, Registers;
    assert full[|full| - 1] == after[|after| - 1] == within[|within| - 1] && beyond[|beyond| - 1] == empty;
    forall c | c in within ensures Sound(reg, c) { assert c in full || c == empty; }
  }

  // ---------------------------------------------------------------- digest

  function Payloads(coding: Coding, facts: seq<Fact>): seq<ByteString> {
    seq(|facts|, i requires 0 <= i < |facts| => coding.json(facts[i]))
  }

  function Lines(payloads: seq<ByteString>): ByteString {
    if payloads == [] then [] else Lines(payloads[..|payloads| - 1]) + payloads[|payloads| - 1] + [10]
  }

  predicate LexLe(a: ByteString, b: ByteString) {
    a == [] || (b != [] && (a[0] < b[0] || (a[0] == b[0] && LexLe(a[1..], b[1..]))))
  }

  lemma {:induction false} LexTotal(a: ByteString, b: ByteString)
    ensures LexLe(a, b) || LexLe(b, a)
    ensures LexLe(a, b) && LexLe(b, a) ==> a == b
  {
    if a != [] && b != [] && a[0] == b[0] {
      LexTotal(a[1..], b[1..]);
      assert a == [a[0]] + a[1..] && b == [b[0]] + b[1..];
    }
  }

  lemma {:induction false} LexTransitive(a: ByteString, b: ByteString, c: ByteString)
    requires LexLe(a, b) && LexLe(b, c)
    ensures LexLe(a, c)
  {
    if a != [] && a[0] == b[0] == c[0] { LexTransitive(a[1..], b[1..], c[1..]); }
  }

  ghost predicate LexSorted(s: seq<ByteString>) {
    forall i, k | 0 <= i < k < |s| :: LexLe(s[i], s[k])
  }

  function InsertBytes(x: ByteString, s: seq<ByteString>): (r: seq<ByteString>)
    ensures multiset(r) == multiset(s) + multiset{x}
  {
    if s == [] || LexLe(x, s[0]) then [x] + s
    else
      assert s == [s[0]] + s[1..];
      [s[0]] + InsertBytes(x, s[1..])
  }

  function SortBytes(s: seq<ByteString>): (r: seq<ByteString>)
    ensures multiset(r) == multiset(s)
  {
    if s == [] then []
    else
      assert s == [s[0]] + s[1..];
      InsertBytes(s[0], SortBytes(s[1..]))
  }

  lemma {:induction false} InsertSorted(x: ByteString, s: seq<ByteString>)
    requires LexSorted(s)
    ensures LexSorted(InsertBytes(x, s))
  {
    hide LexLe;
    if s != [] {
      LexTotal(x, s[0]);
      if LexLe(x, s[0]) {
        forall k | 0 <= k < |s| ensures LexLe(x, s[k]) { if k > 0 { LexTransitive(x, s[0], s[k]); } }
      } else {
        var rest := InsertBytes(x, s[1..]);
        InsertSorted(x, s[1..]);
        forall k | 0 <= k < |rest| ensures LexLe(s[0], rest[k]) {
          assert rest[k] in multiset(rest);
          if rest[k] != x { assert rest[k] in s[1..]; }
        }
      }
    }
  }

  lemma {:induction false} SortSorted(s: seq<ByteString>)
    ensures LexSorted(SortBytes(s))
  {
    if s != [] {
      SortSorted(s[1..]);
      InsertSorted(s[0], SortBytes(s[1..]));
    }
  }

  lemma {:induction false} SortedUnique(a: seq<ByteString>, b: seq<ByteString>)
    requires LexSorted(a) && LexSorted(b) && multiset(a) == multiset(b)
    ensures a == b
    decreases |a|
  {
    hide LexLe, LexSorted, Without;
    SameSize(a, b);
    if a != [] {
      SmallestFirst(a, b);
      SmallestFirst(b, a);
      LexTotal(a[0], b[0]);
      RemoveBoth(a, 0, b, 0);
      TailSorted(a);
      TailSorted(b);
      FirstApart(a);
      FirstApart(b);
      SortedUnique(Without(a, 0), Without(b, 0));
    }
  }

  lemma SameSize<T>(a: seq<T>, b: seq<T>)
    requires multiset(a) == multiset(b)
    ensures |a| == |b|
  {
    assert |multiset(a)| == |a| && |multiset(b)| == |b|;
  }

  lemma FirstApart<T>(a: seq<T>)
    requires a != []
    ensures a == [a[0]] + Without(a, 0) && |Without(a, 0)| < |a|
  {
  }

  lemma TailSorted(a: seq<ByteString>)
    requires LexSorted(a) && a != []
    ensures LexSorted(Without(a, 0))
  {
    hide LexLe;
  }

  lemma SmallestFirst(a: seq<ByteString>, b: seq<ByteString>)
    requires LexSorted(a) && multiset(a) == multiset(b) && a != [] && b != []
    ensures LexLe(a[0], b[0])
  {
    hide LexLe;
    assert b[0] in multiset(a);
    var k :| 0 <= k < |a| && a[k] == b[0];
    LexTotal(a[0], a[0]);
  }

  lemma SortSame(a: seq<ByteString>, b: seq<ByteString>)
    requires multiset(a) == multiset(b)
    ensures SortBytes(a) == SortBytes(b)
  {
    SortSorted(a);
    SortSorted(b);
    SortedUnique(SortBytes(a), SortBytes(b));
  }

  lemma {:induction false} PayloadsSameMultiset(coding: Coding, a: seq<Fact>, b: seq<Fact>)
    requires multiset(a) == multiset(b)
    ensures multiset(Payloads(coding, a)) == multiset(Payloads(coding, b))
    decreases |a|
  {
    assert |multiset(a)| == |a| && |multiset(b)| == |b|;
    if a != [] {
      assert a[0] in multiset(b);
      var k :| 0 <= k < |b| && b[k] == a[0];
      RemoveBoth(a, 0, b, k);
      PayloadsSameMultiset(coding, Without(a, 0), Without(b, k));
      var pa, pb := Payloads(coding, a), Payloads(coding, b);
      WithoutMultiset(pa, 0);
      WithoutMultiset(pb, k);
      assert Without(pa, 0) == Payloads(coding, Without(a, 0));
      assert Without(pb, k) == Payloads(coding, Without(b, k));
    } else {
      assert b == [];
    }
  }
}
