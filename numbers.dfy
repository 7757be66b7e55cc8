/** The numbers of the evaluator in src/eval/eval.js and their text in src/eval/runtime.js.

    A number literal is converted with the host's `parseFloat`; a number is shown with the
    host's number-to-text conversion. Numbers here are exact decimals: a sign, a mantissa
    and a count of decimal places, kept canonical (no trailing zero after the point), or
    NaN. The sign is kept on zero because `-0` and `0` are distinct host numbers. */
module Numbers {

  datatype Num = Decimal(negative: bool, mantissa: nat, scale: nat) | NaN

  function Pow10(k: nat): (p: nat)
    ensures p >= 1
  {
    if k == 0 then 1 else 10 * Pow10(k - 1)
  }

  /** The exact value of a decimal. */
  function Val(n: Num): real
    requires n.Decimal?
  {
    if n.negative then -Magnitude(n) else Magnitude(n)
  }

  function Magnitude(n: Num): real
    requires n.Decimal?
  {
    (n.mantissa as real) / (Pow10(n.scale) as real)
  }

  /** No trailing zero after the decimal point: each value has one canonical decimal. */
  predicate Canonical(n: Num) {
    n.Decimal? ==> n.scale == 0 || n.mantissa % 10 != 0
  }

  /** Host falsiness of a number: zero of either sign, and NaN. */
  predicate IsFalsy(n: Num) {
    n.NaN? || n.mantissa == 0
  }

  // ---------------------------------------------------------------------------
  // Digits
  // ---------------------------------------------------------------------------

  predicate IsDigit(c: char) {
    '0' <= c <= '9'
  }

  predicate AllDigits(s: string) {
    forall k | 0 <= k < |s| :: IsDigit(s[k])
  }

  function DigitValue(c: char): nat
    requires IsDigit(c)
  {
    c as int - '0' as int
  }

  /** The natural number a run of decimal digits denotes. */
  function DigitsValue(s: string): nat
    requires AllDigits(s)
  {
    if s == [] then 0 else 10 * DigitsValue(s[..|s| - 1]) + DigitValue(s[|s| - 1])
  }

  /** The end of the run of digits that starts at `i`. */
  function DigitsEnd(s: string, i: nat): (j: nat)
    requires i <= |s|
    ensures i <= j <= |s| && AllDigits(s[i..j]) && (j < |s| ==> !IsDigit(s[j]))
    decreases |s| - i
  {
    if i < |s| && IsDigit(s[i]) then
      var j := DigitsEnd(s, i + 1);
      assert s[i..j] == [s[i]] + s[i + 1..j];
      j
    else i
  }

  /** A canonical decimal with the value `mantissa / 10^scale`, signed by `negative`. */
  function Normalize(negative: bool, mantissa: nat, scale: nat): (n: Num)
    ensures n.Decimal? && n.negative == negative && Canonical(n)
    ensures Magnitude(n) == (mantissa as real) / (Pow10(scale) as real)
    decreases scale
  {
    if scale > 0 && mantissa % 10 == 0 then
      var n := Normalize(negative, mantissa / 10, scale - 1);
      ShiftPoint(mantissa / 10, Pow10(scale - 1), mantissa, Pow10(scale));
      n
    else Decimal(negative, mantissa, scale)
  }

  /** Dropping a trailing zero and a decimal place keeps the value. */
  lemma ShiftPoint(q: nat, p: nat, m: nat, p10: nat)
    requires p > 0 && m == 10 * q && p10 == 10 * p
    ensures (m as real) / (p10 as real) == (q as real) / (p as real)
  {
    assert (m as real) == 10.0 * (q as real);
    assert (p10 as real) == 10.0 * (p as real);
  }

  // ---------------------------------------------------------------------------
  // parseFloat and negation
  // ---------------------------------------------------------------------------

  /** `parseFloat(s)` for text made of digits and points, as every number literal of the
      scanner is: the value of the longest prefix of the form digits, point, digits, with a
      digit on at least one side of the point; NaN when there is none. */
  function ParseFloat(s: string): (n: Num)
    ensures n.NaN? <==> !((|s| > 0 && IsDigit(s[0])) || (|s| > 1 && s[0] == '.' && IsDigit(s[1])))
    ensures n.Decimal? ==> !n.negative && Canonical(n)
  {
    var i := DigitsEnd(s, 0);
    if i < |s| && s[i] == '.' then
      var j := DigitsEnd(s, i + 1);
      if j == 1 then NaN
      else Normalize(false, DigitsValue(s[..i] + s[i + 1..j]), j - i - 1)
    else if i == 0 then NaN
    else Normalize(false, DigitsValue(s[..i]), 0)
  }

  /** Unary `-` on a number. */
  function Negate(n: Num): (r: Num)
    ensures r.Decimal? <==> n.Decimal?
    ensures r.Decimal? ==> Val(r) == -Val(n) && r.mantissa == n.mantissa && r.negative != n.negative
  {
    match n
    case NaN => NaN
    case Decimal(negative, mantissa, scale) => Decimal(!negative, mantissa, scale)
  }

  /** Negating twice gives the number back, NaN and the sign of zero included. */
  lemma NegateTwice(n: Num)
    ensures Negate(Negate(n)) == n
  {
  }

  // ---------------------------------------------------------------------------
  // Number text
  // ---------------------------------------------------------------------------

  function DigitChar(d: nat): (c: char)
    requires d < 10
    ensures IsDigit(c) && DigitValue(c) == d
  {
    ('0' as int + d) as char
  }

  /** The decimal digits of `m`, without leading zeros. */
  function NatText(m: nat): (s: string)
    ensures |s| > 0 && AllDigits(s) && DigitsValue(s) == m
    ensures m > 0 ==> s[0] != '0'
  {
    if m < 10 then [DigitChar(m)]
    else
      var s := NatText(m / 10) + [DigitChar(m % 10)];
      assert s[..|s| - 1] == NatText(m / 10);
      s
  }

  function Zeros(k: nat): (s: string)
    ensures |s| == k && AllDigits(s) && DigitsValue(s) == 0
  {
    if k == 0 then "" else
      var s := Zeros(k - 1) + "0";
      assert s[..|s| - 1] == Zeros(k - 1);
      s
  }

  /** The digits `d` with a point before the last `scale` of them, padded with leading
      zeros so that one digit stands before the point. */
  function Place(d: string, scale: nat): (s: string)
    ensures |d| > 0 && AllDigits(d) ==> |s| > 0 && IsDigit(s[0])
  {
    if scale == 0 then d
    else
      var p := Zeros(if |d| < scale + 1 then scale + 1 - |d| else 0) + d;
      p[..|p| - scale] + "." + p[|p| - scale..]
  }

  /** The host's text of a number: `NaN`, or an optional `-` and the decimal digits; zero
      shows no sign. */
  function NumberText(n: Num): (s: string)
    ensures s != "" && (s[0] == '-' <==> n.Decimal? && n.negative && n.mantissa > 0)
    ensures n.Decimal? && s[0] != '-' ==> IsDigit(s[0])
    ensures n.Decimal? && s[0] == '-' ==> |s| > 1 && IsDigit(s[1])
    ensures s == "NaN" <==> n.NaN?
  {
    match n
    case NaN => "NaN"
    case Decimal(negative, mantissa, scale) =>
      (if negative && mantissa > 0 then "-" else "") + Place(NatText(mantissa), scale)
  }

  // ---------------------------------------------------------------------------
  // Reading a number's text back
  // ---------------------------------------------------------------------------

  /** The value of digits written one run after another. */
  lemma {:induction false} DigitsConcat(a: string, b: string)
    requires AllDigits(a) && AllDigits(b)
    ensures AllDigits(a + b) && DigitsValue(a + b) == DigitsValue(a) * Pow10(|b|) + DigitsValue(b)
    decreases |b|
  {
    AllDigitsConcat(a, b);
    if b != [] {
      var b' := b[..|b| - 1];
      DigitsConcat(a, b');
      LastDigit(a, b);
      ShiftSum(DigitsValue(a + b), DigitsValue(a + b'), DigitsValue(a), Pow10(|b'|), Pow10(|b|),
        DigitsValue(b'), DigitValue(b[|b| - 1]), DigitsValue(b));
    } else {
      assert a + b == a;
    }
  }

  lemma AllDigitsConcat(a: string, b: string)
    requires AllDigits(a) && AllDigits(b)
    ensures AllDigits(a + b)
  {
    forall k | 0 <= k < |a + b| ensures IsDigit((a + b)[k]) {
      if k < |a| { assert (a + b)[k] == a[k]; } else { assert (a + b)[k] == b[k - |a|]; }
    }
  }

  /** The last digit of `a + b` comes off `b`. */
  lemma LastDigit(a: string, b: string)
    requires AllDigits(a) && AllDigits(b) && b != []
    ensures AllDigits(a + b) && AllDigits(a + b[..|b| - 1])
    ensures DigitsValue(a + b) == 10 * DigitsValue(a + b[..|b| - 1]) + DigitValue(b[|b| - 1])
    ensures DigitsValue(b) == 10 * DigitsValue(b[..|b| - 1]) + DigitValue(b[|b| - 1])
    ensures Pow10(|b|) == 10 * Pow10(|b| - 1)
  {
    AllDigitsConcat(a, b);
    assert (a + b)[..|a + b| - 1] == a + b[..|b| - 1];
    assert (a + b)[|a + b| - 1] == b[|b| - 1];
  }

  /** The arithmetic step of `DigitsConcat`: appending a digit `d` to `b` and to `a + b`. */
  lemma ShiftSum(whole: int, shorter: int, x: int, p: int, q: int, y: int, d: int, last: int)
    requires whole == 10 * shorter + d && shorter == x * p + y
    requires last == 10 * y + d && q == 10 * p
    ensures whole == x * q + last
  {
  }

  /** A run of digits ends where the first non-digit stands. */
  lemma {:induction false} DigitsEndAt(s: string, i: nat, j: nat)
    requires i <= j <= |s| && AllDigits(s[i..j]) && (j < |s| ==> !IsDigit(s[j]))
    ensures DigitsEnd(s, i) == j
    decreases j - i
  {
    if i < j {
      assert s[i] == s[i..j][0];
      assert s[i + 1..j] == s[i..j][1..];
      DigitsEndAt(s, i + 1, j);
    }
  }

  /** Leading zeros do not change the value of digits. */
  lemma PaddedValue(z: string, d: string)
    requires AllDigits(z) && DigitsValue(z) == 0 && AllDigits(d)
    ensures AllDigits(z + d) && DigitsValue(z + d) == DigitsValue(d)
  {
    DigitsConcat(z, d);
  }

  /** `parseFloat` reads digits, a point and digits as the value of all the digits divided
      by ten to the number of digits after the point. */
  lemma PointParses(a: string, b: string)
    requires |a| > 0 && AllDigits(a) && AllDigits(b)
    ensures AllDigits(a + b)
    ensures ParseFloat(a + "." + b) == Normalize(false, DigitsValue(a + b), |b|)
  {
    var s := a + "." + b;
    PointSplits(a, b, s);
    PointRead(s, |a|, |s|, a + b);
  }

  /** Where the runs of digits around the point of `a.b` end, and what they hold. */
  lemma PointSplits(a: string, b: string, s: string)
    requires |a| > 0 && AllDigits(a) && AllDigits(b) && s == a + "." + b
    ensures |s| == |a| + 1 + |b| && s[|a|] == '.' && DigitsEnd(s, 0) == |a| && DigitsEnd(s, |a| + 1) == |s|
    ensures s[..|a|] + s[|a| + 1..|s|] == a + b
  {
    DigitsBeforePoint(a, b, s);
    DigitsAfterPoint(a, b, s);
  }

  lemma DigitsBeforePoint(a: string, b: string, s: string)
    requires AllDigits(a) && s == a + "." + b
    ensures s[|a|] == '.' && DigitsEnd(s, 0) == |a| && s[..|a|] == a
  {
    assert s[..|a|] == a;
    assert s[0..|a|] == a;
    DigitsEndAt(s, 0, |a|);
  }

  lemma DigitsAfterPoint(a: string, b: string, s: string)
    requires AllDigits(b) && s == a + "." + b
    ensures DigitsEnd(s, |a| + 1) == |s| && s[|a| + 1..|s|] == b
  {
    assert s[|a| + 1..|s|] == b;
    DigitsEndAt(s, |a| + 1, |s|);
  }

  /** How `parseFloat` reads digits that run up to a point at `i` and digits after it up
      to `j`. */
  lemma PointRead(s: string, i: nat, j: nat, x: string)
    requires 0 < i < j <= |s| && s[i] == '.' && DigitsEnd(s, 0) == i && DigitsEnd(s, i + 1) == j
    requires x == s[..i] + s[i + 1..j]
    ensures AllDigits(x) && ParseFloat(s) == Normalize(false, DigitsValue(x), j - i - 1)
  {
  }

  /** `parseFloat` reads a run of digits as its value. */
  lemma DigitsParse(d: string)
    requires |d| > 0 && AllDigits(d)
    ensures ParseFloat(d) == Normalize(false, DigitsValue(d), 0)
  {
    DigitsEndAt(d, 0, |d|);
    assert d[..|d|] == d;
  }

  /** The digits `Place` writes when the point goes `scale > 0` digits from the right: `d`
      padded with zeros to more than `scale` digits, which keeps their value. */
  function Padded(d: string, scale: nat): string {
    Zeros(if |d| < scale + 1 then scale + 1 - |d| else 0) + d
  }

  lemma PaddedDigits(d: string, scale: nat)
    requires AllDigits(d)
    ensures var p := Padded(d, scale); |p| > scale && AllDigits(p) && DigitsValue(p) == DigitsValue(d)
  {
    PaddedValue(Zeros(if |d| < scale + 1 then scale + 1 - |d| else 0), d);
  }

  lemma PlacePadded(d: string, scale: nat)
    requires scale > 0
    ensures var p := Padded(d, scale); |p| > scale && Place(d, scale) == p[..|p| - scale] + "." + p[|p| - scale..]
  {
  }

  /** `parseFloat` reads digits with a point placed among them as the digits' value
      divided by the matching power of ten. */
  lemma PlaceParses(d: string, scale: nat)
    requires |d| > 0 && AllDigits(d)
    ensures ParseFloat(Place(d, scale)) == Normalize(false, DigitsValue(d), scale)
  {
    if scale == 0 {
      DigitsParse(d);
    } else {
      var p := Padded(d, scale);
      PaddedDigits(d, scale);
      PlacePadded(d, scale);
      var a, b := p[..|p| - scale], p[|p| - scale..];
      SplitDigits(p, |p| - scale);
      PointParses(a, b);
      calc {
        ParseFloat(Place(d, scale));
        ParseFloat(a + "." + b);
        Normalize(false, DigitsValue(a + b), |b|);
        { assert a + b == p && |b| == scale; }
        Normalize(false, DigitsValue(d), scale);
      }
    }
  }

  /** Both sides of a cut through digits are digits, and they make up the whole. */
  lemma SplitDigits(p: string, k: nat)
    requires AllDigits(p) && k <= |p|
    ensures AllDigits(p[..k]) && AllDigits(p[k..]) && p[..k] + p[k..] == p
  {
    assert forall i | 0 <= i < |p[k..]| :: p[k..][i] == p[k + i];
  }

  /** Normalizing a canonical decimal changes nothing. */
  lemma NormalizeCanonical(n: Num)
    requires n.Decimal? && Canonical(n)
    ensures Normalize(n.negative, n.mantissa, n.scale) == n
  {
  }

  /** `parseFloat` reads the text of any non-negative number back as that number. */
  lemma NumberTextParses(n: Num)
    requires n.Decimal? && !n.negative && Canonical(n)
    ensures ParseFloat(NumberText(n)) == n
  {
    assert NumberText(n) == Place(NatText(n.mantissa), n.scale);
    PlaceParses(NatText(n.mantissa), n.scale);
    NormalizeCanonical(n);
  }
}
