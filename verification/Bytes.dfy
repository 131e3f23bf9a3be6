/** Byte strings: big-endian integers, ASCII text and length-framed concatenation. */
module Bytes {
  type Byte = x: int | 0 <= x < 256
  type ByteString = seq<Byte>

  /** A tag that `encode("ascii")` accepts and that holds no NUL. */
  predicate IsTag(tag: string) {
    forall i | 0 <= i < |tag| :: 0 < tag[i] as int < 128
  }

  function Ascii(tag: string): (r: ByteString)
    requires IsTag(tag)
    ensures |r| == |tag|
  {
    seq(|tag|, i requires 0 <= i < |tag| => tag[i] as int)
  }

  function Pow256(width: nat): (r: nat)
    ensures r > 0
  {
    if width == 0 then 1 else 256 * Pow256(width - 1)
  }

  /** `n.to_bytes(width, "big")`; an integer too wide for `width` bytes is reduced. */
  function BigEndian(n: nat, width: nat): (r: ByteString)
    ensures |r| == width
  {
    if width == 0 then [] else BigEndian(n / 256, width - 1) + [n % 256]
  }

  function FromBigEndian(s: ByteString): (r: nat)
    ensures r < Pow256(|s|)
  {
    if s == [] then 0 else 256 * FromBigEndian(s[..|s| - 1]) + s[|s| - 1]
  }

  lemma {:induction false} DecodeBigEndian(n: nat, width: nat)
    requires n < Pow256(width)
    ensures FromBigEndian(BigEndian(n, width)) == n
  {
    if width > 0 {
      LeadingFits(n, width);
      hide Pow256;
      DecodeBigEndian(n / 256, width - 1);
      FromAppended(BigEndian(n / 256, width - 1), n % 256);
    }
  }

  lemma LeadingFits(n: nat, width: nat)
    requires width > 0 && n < Pow256(width)
    ensures n / 256 < Pow256(width - 1)
  {
  }

  lemma FromAppended(s: ByteString, b: Byte)
    ensures FromBigEndian(s + [b]) == 256 * FromBigEndian(s) + b
  {
    hide Pow256;
    assert (s + [b])[..|s|] == s;
  }

  lemma {:induction false} EncodeBigEndian(s: ByteString)
    ensures BigEndian(FromBigEndian(s), |s|) == s
  {
    if s != [] {
      EncodeBigEndian(s[..|s| - 1]);
      assert s == s[..|s| - 1] + [s[|s| - 1]];
    }
  }

  /** Two equal concatenations whose first parts have one length agree part by part. */
  lemma SplitEqual<T>(a: seq<T>, b: seq<T>, c: seq<T>, d: seq<T>)
    requires a + b == c + d
    requires |a| == |c|
    ensures a == c && b == d
  {
    assert a == (a + b)[..|a|] && c == (c + d)[..|c|];
    assert b == (a + b)[|a|..] && d == (c + d)[|c|..];
  }
}
