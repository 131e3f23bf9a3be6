/** Canonical plain text of a decimal: one text per value, refused when it would be too long. */
module CanonicalDecimal {
  import opened Prelude

  const MAX_CHARS := 1_048_576

  type Digit = x: int | 0 <= x < 10

  /** A finite decimal: sign, coefficient digits and exponent; the coefficient has no leading zero. */
  datatype Decimal = Decimal(negative: bool, digits: seq<Digit>, exponent: int)

  predicate WellFormed(d: Decimal) {
    d.digits != [] && (|d.digits| > 1 ==> d.digits[0] != 0)
  }

  // ---------------------------------------------------------------- numbers

  function Ten(n: nat): (r: nat)
    ensures r >= 1
  {
    if n == 0 then 1 else 10 * Ten(n - 1)
  }

  function Int(s: seq<Digit>): nat {
    if s == [] then 0 else 10 * Int(s[..|s| - 1]) + s[|s| - 1]
  }

  /** The number `n` shifted right by `places` decimal places. */
  function Shifted(n: nat, places: nat): real {
    n as real / Ten(places) as real
  }

  function Signed(negative: bool, x: real): real { if negative then -x else x }

  function Value(d: Decimal): real {
    Signed(d.negative, if d.exponent >= 0 then Int(d.digits) as real * Ten(d.exponent) as real
                       else Shifted(Int(d.digits), -d.exponent))
  }

  function Zeros(n: nat): (r: seq<Digit>)
    ensures |r| == n && forall i | 0 <= i < n :: r[i] == 0
  {
    seq(n, _ => 0)
  }

  // ------------------------------------------------------------- plain text

  /** Plain notation: a sign, the digits before the point, the digits after it. */
  datatype Plain = Plain(negative: bool, whole: seq<Digit>, fraction: seq<Digit>)

  function PlainValue(p: Plain): real {
    Signed(p.negative, Shifted(Int(p.whole + p.fraction), |p.fraction|))
  }

  /** No leading zero before the first digit but one, no trailing zero after the point, no minus zero. */
  predicate Minimal(p: Plain) {
    && p.whole != [] && (|p.whole| > 1 ==> p.whole[0] != 0)
    && (p.fraction != [] ==> p.fraction[|p.fraction| - 1] != 0)
    && (p.negative ==> p.whole != [0] || p.fraction != [])
  }

  function CharOf(d: Digit): char { (d + '0' as int) as char }

  function DigitOf(c: char): Digit { if '0' <= c <= '9' then c as int - '0' as int else 0 }

  function Text(s: seq<Digit>): (r: string)
    ensures |r| == |s| && forall i | 0 <= i < |s| :: r[i] == CharOf(s[i])
  {
    seq(|s|, i requires 0 <= i < |s| => CharOf(s[i]))
  }

  function Digits(s: string): (r: seq<Digit>)
    ensures |r| == |s| && forall i | 0 <= i < |s| :: r[i] == DigitOf(s[i])
  {
    seq(|s|, i requires 0 <= i < |s| => DigitOf(s[i]))
  }

  function Render(p: Plain): string {
    (if p.negative then "-" else "") + Text(p.whole) + (if p.fraction == [] then "" else "." + Text(p.fraction))
  }

  /** Where the point is, or the length of a text without one. */
  function PointAt(s: string): (k: nat)
    ensures k <= |s| && (k < |s| ==> s[k] == '.') && forall i | 0 <= i < k :: s[i] != '.'
  {
    if s == [] || s[0] == '.' then 0 else 1 + PointAt(s[1..])
  }

  function Parse(s: string): Plain {
    var negative := s != [] && s[0] == '-';
    var body := if negative then s[1..] else s;
    var k := PointAt(body);
    Plain(negative, Digits(body[..k]), if k == |body| then [] else Digits(body[k + 1..]))
  }

  /** A text that is the minimal plain notation of its own value. */
  predicate IsCanonical(s: string) {
    Minimal(Parse(s)) && Render(Parse(s)) == s
  }

  function TextValue(s: string): real { PlainValue(Parse(s)) }

  lemma TextRoundTrip(s: seq<Digit>)
    ensures Digits(Text(s)) == s && forall i | 0 <= i < |s| :: Text(s)[i] != '.' && Text(s)[i] != '-'
  {
  }

  lemma PointFound(a: string, b: string)
    requires forall i | 0 <= i < |a| :: a[i] != '.'
    ensures PointAt(a) == |a| && PointAt(a + "." + b) == |a|
  {
    var s := a + "." + b;
    assert s[|a|] == '.';
    assert forall i | 0 <= i < |a| :: s[i] == a[i];
  }

  lemma ParseRender(p: Plain)
    requires p.whole != []
    ensures Parse(Render(p)) == p
  {
    hide *;
    RenderParts(p);
    BodyParts(p.whole, p.fraction);
    ParseBody(p.negative, Body(p.whole, p.fraction));
  }

  lemma ParseBody(negative: bool, body: string)
    requires body != [] && body[0] != '-'
    ensures var k := PointAt(body);
            Parse(if negative then "-" + body else body)
            == Plain(negative, Digits(body[..k]), if k == |body| then [] else Digits(body[k + 1..]))
  {
    hide PointAt, Digits;
    assert ("-" + body)[1..] == body;
  }

  function Body(whole: seq<Digit>, fraction: seq<Digit>): string {
    Text(whole) + (if fraction == [] then "" else "." + Text(fraction))
  }

  lemma BodyParts(w: seq<Digit>, f: seq<Digit>)
    requires w != []
    ensures var body := Body(w, f);
            && body != [] && body[0] != '-' && PointAt(body) == |w| && Digits(body[..|w|]) == w
            && (f == [] <==> |body| == |w|) && (f != [] ==> Digits(body[|w| + 1..]) == f)
  {
    hide PointAt, CharOf, DigitOf;
    TextRoundTrip(w);
    TextRoundTrip(f);
    var whole, fraction, body := Text(w), Text(f), Body(w, f);
    PointFound(whole, fraction);
    if f == [] {
      assert body == whole;
    } else {
      assert body == whole + "." + fraction;
      assert body[..|whole|] == whole && body[|whole| + 1..] == fraction;
    }
  }

  // ----------------------------------------------------- digits and numbers

  lemma {:induction false} IntJoin(a: seq<Digit>, b: seq<Digit>)
    ensures Int(a + b) == Int(a) * Ten(|b|) + Int(b)
  {
    if b == [] {
      assert a + b == a;
    } else {
      var front, last := b[..|b| - 1], b[|b| - 1];
      assert (a + b)[..|a + b| - 1] == a + front;
      IntJoin(a, front);
      hide Ten;
      JoinStep(Int(a), Ten(|front|), Int(front), last);
      assert Ten(|b|) == 10 * Ten(|front|) by { TenStep(|front|); }
    }
  }

  lemma TenStep(n: nat)
    ensures Ten(n + 1) == 10 * Ten(n)
  {
  }

  lemma JoinStep(x: int, t: int, f: int, l: int)
    ensures 10 * (x * t + f) + l == x * (10 * t) + (10 * f + l)
  {
  }

  lemma {:induction false} IntZeros(n: nat)
    ensures Int(Zeros(n)) == 0
  {
    if n > 0 {
      assert Zeros(n)[..n - 1] == Zeros(n - 1);
      IntZeros(n - 1);
    }
  }

  lemma {:induction false} IntBound(s: seq<Digit>)
    ensures Int(s) < Ten(|s|)
    ensures s != [] && s[0] != 0 ==> Int(s) >= Ten(|s| - 1)
  {
    if s != [] {
      IntBound(s[..|s| - 1]);
    }
  }

  lemma {:induction false} IntInjective(a: seq<Digit>, b: seq<Digit>)
    requires |a| == |b| && Int(a) == Int(b)
    ensures a == b
  {
    if a != [] {
      var x, y := a[..|a| - 1], b[..|b| - 1];
      assert Int(a) == 10 * Int(x) + a[|a| - 1] && Int(b) == 10 * Int(y) + b[|b| - 1];
      IntInjective(x, y);
      assert a == x + [a[|a| - 1]] && b == y + [b[|b| - 1]];
    }
  }

  lemma {:induction false} TenAdds(a: nat, b: nat)
    ensures Ten(a + b) == Ten(a) * Ten(b)
  {
    if a > 0 { TenAdds(a - 1, b); }
  }

  lemma {:induction false} TenGrows(a: nat, b: nat)
    requires a <= b
    ensures Ten(a) <= Ten(b)
    decreases b
  {
    if a < b {
      TenGrows(a, b - 1);
    }
  }

  // -------------------------------------------------------------- uniqueness

  lemma Cancel(n: real, t: real, k: real, m: real)
    requires t > 0.0 && k > 0.0 && n / t == m / (k * t)
    ensures n * k == m
  {
    assert k * t > 0.0;
    assert n / t * (k * t) == m;
    assert n / t * (k * t) == n * k;
  }

  lemma SameShift(n: nat, f: nat, m: nat, g: nat)
    requires f <= g && Shifted(n, f) == Shifted(m, g)
    ensures n * Ten(g - f) == m
  {
    TenAdds(g - f, f);
    hide Ten;
    var t, k := Ten(f), Ten(g - f);
    CancelShift(n, t, k, m);
  }

  lemma CancelShift(n: nat, t: nat, k: nat, m: nat)
    requires t >= 1 && k >= 1 && n as real / t as real == m as real / (k * t) as real
    ensures n * k == m
  {
    Product(k, t);
    Cancel(n as real, t as real, k as real, m as real);
    Product(n, k);
  }

  lemma Product(a: nat, b: nat)
    ensures (a * b) as real == a as real * b as real
  {
  }

  function Magnitude(p: Plain): nat { Int(p.whole + p.fraction) }

  lemma LastDigit(p: Plain)
    requires p.fraction != []
    ensures Magnitude(p) % 10 == p.fraction[|p.fraction| - 1]
  {
    var s := p.whole + p.fraction;
    assert s[|s| - 1] == p.fraction[|p.fraction| - 1];
  }

  lemma ZeroIsZero(p: Plain)
    requires Minimal(p) && Magnitude(p) == 0
    ensures p == Plain(false, [0], [])
  {
    if p.fraction == [] {
      assert p.whole + p.fraction == p.whole;
      IntBound(p.whole);
      assert |p.whole| == 1;
      assert p.whole[..0] == [];
      assert p.whole == [p.whole[0]];
    } else {
      LastDigit(p);
    }
  }

  /** Equal magnitudes over one number of places come from the same digits. */
  lemma SameDigits(p: Plain, q: Plain)
    requires Minimal(p) && Minimal(q) && |p.fraction| == |q.fraction| && Magnitude(p) == Magnitude(q)
    ensures p.whole == q.whole && p.fraction == q.fraction
  {
    if |p.whole| < |q.whole| { LongerIsLarger(p, q); }
    if |q.whole| < |p.whole| { LongerIsLarger(q, p); }
    IntInjective(p.whole + p.fraction, q.whole + q.fraction);
    assert p.whole == (p.whole + p.fraction)[..|p.whole|] && q.whole == (q.whole + q.fraction)[..|q.whole|];
    assert p.fraction == (p.whole + p.fraction)[|p.whole|..] && q.fraction == (q.whole + q.fraction)[|q.whole|..];
  }

  lemma LongerIsLarger(p: Plain, q: Plain)
    requires Minimal(p) && Minimal(q) && |p.fraction| == |q.fraction| && |p.whole| < |q.whole|
    ensures Magnitude(p) < Magnitude(q)
  {
    var a, b := p.whole + p.fraction, q.whole + q.fraction;
    IntBound(a);
    IntBound(b);
    assert b[0] == q.whole[0];
    TenGrows(|a|, |b| - 1);
  }

  lemma SamePlaces(p: Plain, q: Plain)
    requires Minimal(p) && Minimal(q) && Shifted(Magnitude(p), |p.fraction|) == Shifted(Magnitude(q), |q.fraction|)
    requires |p.fraction| <= |q.fraction|
    ensures |p.fraction| == |q.fraction| && Magnitude(p) == Magnitude(q)
  {
    var f, g := |p.fraction|, |q.fraction|;
    SameShift(Magnitude(p), f, Magnitude(q), g);
    if f < g {
      LastDigit(q);
      TenStep(g - f - 1);
      hide Ten;
      TimesTen(Magnitude(p), Ten(g - f - 1));
    }
  }

  lemma TimesTen(n: nat, t: nat)
    ensures n * (10 * t) % 10 == 0
  {
    assert n * (10 * t) == 10 * (n * t);
  }

  lemma ShiftedSign(n: nat, f: nat)
    ensures Shifted(n, f) >= 0.0 && (Shifted(n, f) == 0.0 <==> n == 0)
  {
    hide Ten;
    var x, t := n as real, Ten(f) as real;
    assert x / t * t == x;
  }

  /** Minimal notations of one value are the same notation. */
  lemma MinimalIsUnique(p: Plain, q: Plain)
    requires Minimal(p) && Minimal(q) && PlainValue(p) == PlainValue(q)
    ensures p == q
  {
    hide Shifted, Int, Minimal;
    ShiftedSign(Magnitude(p), |p.fraction|);
    ShiftedSign(Magnitude(q), |q.fraction|);
    if Magnitude(p) == 0 || Magnitude(q) == 0 {
      ZeroIsZero(p);
      ZeroIsZero(q);
    } else {
      assert p.negative == q.negative;
      if |p.fraction| <= |q.fraction| { SamePlaces(p, q); } else { SamePlaces(q, p); }
      SameDigits(p, q);
    }
  }

  /** Canonical texts are equal exactly when their values are. */
  lemma CanonicalTextIsUnique(s: string, t: string)
    requires IsCanonical(s) && IsCanonical(t)
    ensures s == t <==> TextValue(s) == TextValue(t)
  {
    hide Parse, Render, Minimal, PlainValue;
    if TextValue(s) == TextValue(t) { MinimalIsUnique(Parse(s), Parse(t)); }
  }

  // --------------------------------------------------------------- printing

  /** The notation of a coefficient without trailing zero and its exponent. */
  function Placed(negative: bool, digits: seq<Digit>, exponent: int): Plain {
    if exponent >= 0 then Plain(negative, digits + Zeros(exponent), [])
    else if -exponent >= |digits| then Plain(negative, [0], Zeros(-exponent - |digits|) + digits)
    else Plain(negative, digits[..|digits| + exponent], digits[|digits| + exponent..])
  }

  lemma PlacedMinimal(negative: bool, digits: seq<Digit>, exponent: int)
    requires digits != [] && digits[0] != 0 && digits[|digits| - 1] != 0
    ensures Minimal(Placed(negative, digits, exponent))
  {
    var p := Placed(negative, digits, exponent);
    if exponent < 0 {
      assert p.fraction[|p.fraction| - 1] == digits[|digits| - 1];
    }
    assert exponent >= 0 || -exponent < |digits| ==> p.whole[0] == digits[0];
  }

  lemma PlacedValue(negative: bool, digits: seq<Digit>, exponent: int)
    requires digits != []
    ensures PlainValue(Placed(negative, digits, exponent)) == Value(Decimal(negative, digits, exponent))
  {
    hide Ten, Int;
    if exponent >= 0 {
      WholeValue(digits, exponent);
    } else if -exponent >= |digits| {
      FractionValue(digits, -exponent);
    } else {
      var k := |digits| + exponent;
      assert digits[..k] + digits[k..] == digits;
    }
  }

  lemma WholeValue(digits: seq<Digit>, n: nat)
    ensures Shifted(Int(digits + Zeros(n) + []), 0) == Int(digits) as real * Ten(n) as real
  {
    hide Ten, Int, Zeros, Shifted;
    IntJoin(digits, Zeros(n));
    IntZeros(n);
    assert digits + Zeros(n) + [] == digits + Zeros(n);
    Unshifted(Int(digits + Zeros(n)));
    Product(Int(digits), Ten(n));
  }

  lemma Unshifted(n: nat)
    ensures Shifted(n, 0) == n as real
  {
  }

  lemma FractionValue(digits: seq<Digit>, n: nat)
    requires n >= |digits|
    ensures Int([0] + (Zeros(n - |digits|) + digits)) == Int(digits) && |Zeros(n - |digits|) + digits| == n
  {
    hide Ten, Int, Zeros;
    LeadingZeros(n - |digits|, digits);
    var rest := Zeros(n - |digits|) + digits;
    LeadingZeros(1, rest);
    assert [0] == Zeros(1);
  }

  lemma LeadingZeros(n: nat, s: seq<Digit>)
    ensures Int(Zeros(n) + s) == Int(s)
  {
    IntJoin(Zeros(n), s);
    IntZeros(n);
    hide Ten, Int, Zeros;
    assert 0 * Ten(|s|) == 0;
  }

  lemma StripZero(negative: bool, digits: seq<Digit>, exponent: int)
    ensures Value(Decimal(negative, digits + [0], exponent)) == Value(Decimal(negative, digits, exponent + 1))
  {
    IntJoin(digits, [0]);
    assert [0][..0] == [] && Int([0]) == 0 && Ten(1) == 10 * Ten(0) == 10;
    var n := Int(digits);
    assert Int(digits + [0]) == 10 * n;
    if exponent >= 0 {
      TenStep(exponent);
      hide Ten, Int;
      Regroup(n as real, Ten(exponent) as real);
    } else {
      TenStep(-exponent - 1);
      assert exponent == -1 ==> Ten(0) == 1;
      hide Ten, Int;
      Reduce(n as real, Ten(-exponent - 1) as real);
    }
  }

  lemma Regroup(n: real, t: real)
    ensures 10.0 * n * t == n * (10.0 * t)
  {
  }

  lemma Reduce(n: real, t: real)
    requires t > 0.0
    ensures 10.0 * n / (10.0 * t) == n / t
  {
    assert n / t * (10.0 * t) == 10.0 * n;
  }

  function Length(p: Plain): nat {
    (if p.negative then 1 else 0) + |p.whole| + (if p.fraction == [] then 0 else 1 + |p.fraction|)
  }

  lemma RenderLength(p: Plain)
    ensures |Render(p)| == Length(p)
  {
  }

  /** The length as it is computed before the text is expanded. */
  function PredictedLength(negative: bool, digits: seq<Digit>, exponent: int): int {
    var sign := if negative then 1 else 0;
    if exponent >= 0 then sign + |digits| + exponent
    else if -exponent >= |digits| then sign + 2 - exponent
    else sign + |digits| + 1
  }

  /** The predicted length is the length of the text. */
  lemma LengthIsPredicted(negative: bool, digits: seq<Digit>, exponent: int)
    requires digits != []
    ensures |Render(Placed(negative, digits, exponent))| == PredictedLength(negative, digits, exponent)
  {
    hide Render;
    RenderLength(Placed(negative, digits, exponent));
  }

  lemma ZeroValue(d: Decimal)
    requires Int(d.digits) == 0
    ensures Value(d) == 0.0
  {
    hide Ten;
  }

  /** The answer for a decimal: a canonical text of its value within the limit, or a refusal when
      it has one and it is longer. */
  ghost predicate Prints(d: Decimal, r: Option<string>) {
    match r
    case Some(s) => IsCanonical(s) && TextValue(s) == Value(d) && |s| <= MAX_CHARS
    case None =>
      && (exists s :: IsCanonical(s) && TextValue(s) == Value(d))
      && (forall s | IsCanonical(s) && TextValue(s) == Value(d) :: |s| > MAX_CHARS)
  }

  /** The canonical text of a decimal, or a refusal when every canonical text of its value is too long. */
  method CanonicalDecimalStr(d: Decimal) returns (r: Option<string>)
    requires WellFormed(d)
    ensures Prints(d, r)
  {
    hide IsCanonical, TextValue, Value, Int, Parse, Render, PlainValue, Minimal;
    if forall i | 0 <= i < |d.digits| :: d.digits[i] == 0 {
      ZeroText(d);
      return Some("0");
    }
    var trailing := 0;
    while d.digits[|d.digits| - 1 - trailing] == 0
      invariant 0 <= trailing < |d.digits|
      invariant forall i | |d.digits| - trailing <= i < |d.digits| :: d.digits[i] == 0
      decreases |d.digits| - trailing
    {
      trailing := trailing + 1;
    }
    var digits, exponent := d.digits[..|d.digits| - trailing], d.exponent + trailing;
    StrippedValue(d, trailing);
    ghost var p := Placed(d.negative, digits, exponent);
    PlacedMinimal(d.negative, digits, exponent);
    PlacedValue(d.negative, digits, exponent);
    PlainText(p, d);
    LengthIsPredicted(d.negative, digits, exponent);
    if PredictedLength(d.negative, digits, exponent) > MAX_CHARS { return None; }
    var body := Print(d.negative, digits, exponent);
    return Some(body);
  }

  /** The text of a placed coefficient: zeros after it, before it, or a point inside it. */
  method Print(negative: bool, digits: seq<Digit>, exponent: int) returns (body: string)
    requires digits != []
    ensures body == Render(Placed(negative, digits, exponent))
  {
    hide Text, Zeros;
    body := Text(digits);
    if exponent > 0 {
      body := body + Text(Zeros(exponent));
      TextJoin(digits, Zeros(exponent));
    } else if exponent < 0 {
      if -exponent >= |digits| {
        body := "0" + ("." + (Text(Zeros(-exponent - |digits|)) + body));
        TextJoin(Zeros(-exponent - |digits|), digits);
        TextZero();
      } else {
        var dot := |digits| + exponent;
        TextJoin(digits[..dot], digits[dot..]);
        assert digits == digits[..dot] + digits[dot..];
        assert body[..dot] == Text(digits[..dot]) && body[dot..] == Text(digits[dot..]);
        body := body[..dot] + ("." + body[dot..]);
      }
    } else {
      assert digits + Zeros(0) == digits;
    }
    if negative { body := "-" + body; }
    RenderParts(Placed(negative, digits, exponent));
    assert "" + body == body;
  }

  lemma TextJoin(a: seq<Digit>, b: seq<Digit>)
    ensures Text(a + b) == Text(a) + Text(b)
  {
  }

  lemma TextZero()
    ensures Text([0]) == "0"
  {
  }

  lemma RenderParts(p: Plain)
    ensures Render(p) == if p.negative then "-" + Body(p.whole, p.fraction) else Body(p.whole, p.fraction)
    ensures p.fraction == [] ==> Render(p) == if p.negative then "-" + Text(p.whole) else Text(p.whole)
  {
    hide Text;
    var tail := if p.fraction == [] then "" else "." + Text(p.fraction);
    var head := if p.negative then "-" else "";
    assert head + Text(p.whole) + tail == head + (Text(p.whole) + tail);
    assert p.fraction == [] ==> Text(p.whole) + tail == Text(p.whole);
  }

  lemma ZeroText(d: Decimal)
    requires WellFormed(d) && forall i | 0 <= i < |d.digits| :: d.digits[i] == 0
    ensures IsCanonical("0") && TextValue("0") == Value(d)
  {
    var p := Plain(false, [0], []);
    assert d.digits == Zeros(|d.digits|);
    IntZeros(|d.digits|);
    ZeroValue(d);
    assert [0] + [] == [0] == Zeros(1);
    IntZeros(1);
    ParseRender(p);
    assert Text([0]) == "0";
    assert Render(p) == "0";
  }

  lemma {:induction false} StrippedValue(d: Decimal, trailing: nat)
    requires trailing <= |d.digits| && forall i | |d.digits| - trailing <= i < |d.digits| :: d.digits[i] == 0
    ensures Value(Decimal(d.negative, d.digits[..|d.digits| - trailing], d.exponent + trailing)) == Value(d)
    decreases trailing
  {
    hide Value;
    if trailing == 0 {
      assert d.digits[..|d.digits|] == d.digits;
    } else {
      StrippedValue(d, trailing - 1);
      var shorter := d.digits[..|d.digits| - trailing];
      assert d.digits[..|d.digits| - (trailing - 1)] == shorter + [0];
      StripZero(d.negative, shorter, d.exponent + trailing - 1);
    }
  }

  /** The minimal notation of the value gives its only canonical text. */
  lemma PlainText(p: Plain, d: Decimal)
    requires Minimal(p) && PlainValue(p) == Value(d)
    ensures IsCanonical(Render(p)) && TextValue(Render(p)) == Value(d) && |Render(p)| == Length(p)
    ensures forall s | IsCanonical(s) && TextValue(s) == Value(d) :: s == Render(p)
  {
    hide Value, PlainValue, Render, Parse;
    ParseRender(p);
    RenderLength(p);
    forall s | IsCanonical(s) && TextValue(s) == Value(d) ensures s == Render(p) {
      CanonicalTextIsUnique(s, Render(p));
    }
  }

  /** Printing follows the value: decimals of one value print the same text or are both refused,
      and one text is printed for one value only. */
  lemma PrintingFollowsValue(d: Decimal, r: Option<string>, e: Decimal, q: Option<string>)
    requires WellFormed(d) && Prints(d, r) && WellFormed(e) && Prints(e, q)
    ensures Value(d) == Value(e) ==> r == q
    ensures r.Some? && r == q ==> Value(d) == Value(e)
  {
    hide IsCanonical, TextValue, Value;
    if r.Some? && q.Some? { CanonicalTextIsUnique(r.value, q.value); }
  }
}
