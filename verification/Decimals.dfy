/** Floats as exact decimals: rounding to a number of places, half to even, and their text. */
module Decimals {

  /** coef / 10^scale. Every finite binary float is such a number. */
  datatype Dec = Dec(coef: int, scale: nat)

  /** No trailing zero after the point: one representation per value. */
  predicate Normal(x: Dec) {
    x.scale == 0 || x.coef % 10 != 0
  }

  type Decimal = x: Dec | Normal(x) witness Dec(0, 0)

  function Pow10(n: nat): (r: nat)
    ensures r > 0
  {
    if n == 0 then 1 else 10 * Pow10(n - 1)
  }

  function Strip(x: Dec): (r: Dec)
    ensures Normal(r) && r.scale <= x.scale
    decreases x.scale
  {
    if Normal(x) then x else Strip(Dec(x.coef / 10, x.scale - 1))
  }

  /** The integer nearest to c / d; a tie goes to the even neighbour. */
  function Nearest(c: int, d: nat): int
    requires d > 0
  {
    var q, r := c / d, c % d;
    if 2 * r < d || (2 * r == d && q % 2 == 0) then q else q + 1
  }

  function Round(x: Dec, places: nat): Decimal {
    if x.scale <= places then Strip(x) else Strip(Dec(Nearest(x.coef, Pow10(x.scale - places)), places))
  }

  function Abs(i: int): nat {
    if i < 0 then -i else i
  }

  /** The rounded value is the closest one, and the even one of two that are equally close. */
  lemma NearestIsNearest(c: int, d: nat, k: int)
    requires d > 0
    ensures Abs(c - Nearest(c, d) * d) <= Abs(c - k * d)
    ensures Abs(c - Nearest(c, d) * d) == Abs(c - k * d) && k != Nearest(c, d) ==> Nearest(c, d) % 2 == 0
  {
    var q, r := c / d, c % d;
    DivMod(c, d);
    if k <= q {
      MulMonotone(k, q, d);
    } else {
      MulMonotone(q + 1, k, d);
    }
    if k < q {
      MulMonotone(k + 1, q, d);
    }
    if k > q + 1 {
      MulMonotone(q + 2, k, d);
    }
  }

  lemma DivMod(c: int, d: nat)
    requires d > 0
    ensures c == (c / d) * d + c % d && 0 <= c % d < d
    ensures (c / d + 1) * d == (c / d) * d + d && (c / d + 2) * d == (c / d) * d + 2 * d
  {
  }

  lemma MulMonotone(a: int, b: int, d: nat)
    requires a <= b
    ensures a * d <= b * d && (a + 1) * d == a * d + d
  {
  }

  /** Noise of less than half a unit in the last place kept is forgotten. */
  lemma NoiseForgotten(c: int, scale: nat, places: nat, k: int)
    requires places < scale && 2 * Abs(c - k * Pow10(scale - places)) < Pow10(scale - places)
    ensures Round(Dec(c, scale), places) == Strip(Dec(k, places))
  {
    CloseMeansNearest(c, Pow10(scale - places), k);
  }

  lemma CloseMeansNearest(c: int, d: nat, k: int)
    requires d > 0 && 2 * Abs(c - k * d) < d
    ensures Nearest(c, d) == k
  {
    var n := Nearest(c, d);
    HalfUnit(c, d);
    if k < n {
      MulMonotone(k + 1, n, d);
      MulMonotone(k, k, d);
    } else if n < k {
      MulMonotone(n + 1, k, d);
      MulMonotone(n, n, d);
    }
  }

  /** A difference of more than one unit in the last place kept survives. */
  lemma DifferenceSurvives(c1: int, c2: int, scale: nat, places: nat)
    requires places < scale && Abs(c1 - c2) > Pow10(scale - places)
    ensures Round(Dec(c1, scale), places) != Round(Dec(c2, scale), places)
  {
    var d := Pow10(scale - places);
    HalfUnit(c1, d);
    HalfUnit(c2, d);
    if Round(Dec(c1, scale), places) == Round(Dec(c2, scale), places) {
      StripInjective(Nearest(c1, d), Nearest(c2, d), places);
    }
  }

  lemma HalfUnit(c: int, d: nat)
    requires d > 0
    ensures 2 * Abs(c - Nearest(c, d) * d) <= d
  {
    DivMod(c, d);
  }

  lemma {:induction false} StripInjective(a: int, b: int, scale: nat)
    requires Strip(Dec(a, scale)) == Strip(Dec(b, scale))
    ensures a == b
  {
    StripScaled(Dec(a, scale));
    StripScaled(Dec(b, scale));
  }

  /** Stripping divides by a power of ten. */
  lemma {:induction false} StripScaled(x: Dec)
    ensures x.coef == Strip(x).coef * Pow10(x.scale - Strip(x).scale)
    decreases x.scale
  {
    if !Normal(x) {
      StripScaled(Dec(x.coef / 10, x.scale - 1));
      var r := Strip(x);
      assert Pow10(x.scale - r.scale) == 10 * Pow10(x.scale - 1 - r.scale);
      MulTen(r.coef, Pow10(x.scale - 1 - r.scale));
    }
  }

  lemma MulTen(a: int, b: int)
    ensures a * (10 * b) == 10 * (a * b)
  {
  }

  /** A rounded value is not rounded again. */
  lemma RoundTwice(x: Dec, places: nat)
    ensures Round(Round(x, places), places) == Round(x, places)
  {
  }

  // ---------------------------------------------------------------- text

  function DigitChar(d: nat): (c: char)
    requires d < 10
    ensures '0' <= c <= '9'
  {
    ('0' as int + d) as char
  }

  function DigitValue(c: char): nat {
    if '0' <= c <= '9' then c as int - '0' as int else 0
  }

  predicate AllDigits(s: string) {
    forall c :: c in s ==> '0' <= c <= '9'
  }

  function Digits(n: nat): (s: string)
    ensures s != [] && AllDigits(s)
  {
    if n < 10 then [DigitChar(n)] else Digits(n / 10) + [DigitChar(n % 10)]
  }

  function ValueOf(s: string): nat {
    if s == [] then 0 else 10 * ValueOf(s[..|s| - 1]) + DigitValue(s[|s| - 1])
  }

  lemma {:induction false} ValueOfDigits(n: nat)
    ensures ValueOf(Digits(n)) == n
    ensures DigitValue(Digits(n)[|Digits(n)| - 1]) == n % 10
  {
    if n < 10 {
      assert [DigitChar(n)][..0] == [];
      assert ValueOf([]) == 0;
    } else {
      ValueOfDigits(n / 10);
      var s := Digits(n);
      assert s[..|s| - 1] == Digits(n / 10);
    }
  }

  function Zeros(n: nat): (s: string)
    ensures |s| == n && AllDigits(s)
  {
    seq(n, _ => '0')
  }

  lemma {:induction false} ValueOfPadded(n: nat, s: string)
    ensures ValueOf(Zeros(n) + s) == ValueOf(s)
    decreases |s|, n
  {
    var t := Zeros(n) + s;
    if s == [] {
      if n > 0 {
        assert t[..|t| - 1] == Zeros(n - 1) + [];
        ValueOfPadded(n - 1, []);
      }
    } else {
      assert t[..|t| - 1] == Zeros(n) + s[..|s| - 1];
      ValueOfPadded(n, s[..|s| - 1]);
    }
  }

  function Padded(s: string, width: nat): (r: string)
    ensures |r| >= width && |r| >= |s|
  {
    if |s| < width then Zeros(width - |s|) + s else s
  }

  /** Digits with at least one of them before the point. */
  function Body(x: Dec): (s: string)
    ensures |s| > x.scale && AllDigits(s)
    ensures DigitValue(s[|s| - 1]) == Abs(x.coef) % 10 && ValueOf(s) == Abs(x.coef)
  {
    var d := Digits(Abs(x.coef));
    ValueOfDigits(Abs(x.coef));
    ValueOfPadded(if |d| < x.scale + 1 then x.scale + 1 - |d| else 0, d);
    Padded(d, x.scale + 1)
  }

  function Sign(i: int): string {
    if i < 0 then "-" else ""
  }

  function IntText(i: int): string {
    Sign(i) + Digits(Abs(i))
  }

  lemma SliceDigits(s: string, i: nat)
    requires AllDigits(s) && i <= |s|
    ensures AllDigits(s[..i]) && AllDigits(s[i..])
  {
    forall c | c in s[..i] || c in s[i..] ensures '0' <= c <= '9' {
      assert c in s;
    }
  }

  function Whole(x: Dec): (s: string)
    ensures |s| > 0 && AllDigits(s)
  {
    var b := Body(x);
    SliceDigits(b, |b| - x.scale);
    b[..|b| - x.scale]
  }

  function Frac(x: Dec): (s: string)
    ensures |s| > 0 && AllDigits(s)
  {
    var b := Body(x);
    SliceDigits(b, |b| - x.scale);
    if x.scale == 0 then "0" else b[|b| - x.scale..]
  }

  /** Positional notation; there is always a point and a digit after it. */
  function Positional(x: Decimal): string {
    Whole(x) + ("." + Frac(x))
  }

  /** The exponent of the first digit. */
  function Exponent(x: Dec): int {
    |Digits(Abs(x.coef))| - 1 - x.scale
  }

  /** Without the zeros at the end. */
  function TrimZeros(s: string): (r: string)
    requires s != [] && AllDigits(s)
    ensures r != [] && AllDigits(r) && |r| <= |s|
  {
    if |s| > 1 && s[|s| - 1] == '0' then
      SliceDigits(s, |s| - 1);
      TrimZeros(s[..|s| - 1])
    else s
  }

  function Significant(x: Dec): (s: string)
    ensures s != [] && AllDigits(s) && |s| <= |Digits(Abs(x.coef))|
  {
    TrimZeros(Digits(Abs(x.coef)))
  }

  function Mantissa(d: string): string
    requires d != []
  {
    d[..1] + if |d| > 1 then "." + d[1..] else ""
  }

  /** At least two digits after a sign. */
  function ExponentText(e: int): string {
    (if e < 0 then "-" else "+") + Padded(Digits(Abs(e)), 2)
  }

  function Scientific(x: Decimal): string {
    Mantissa(Significant(x)) + ("e" + ExponentText(Exponent(x)))
  }

  /** As `repr`: with an exponent from 1e16 on and below 1e-4, and positional between. */
  function FloatText(x: Decimal): string {
    Sign(x.coef) + if -4 <= Exponent(x) < 16 then Positional(x) else Scientific(x)
  }

  lemma WholeAndFrac(x: Decimal)
    ensures x.scale == 0 ==> Frac(x) == "0" && ValueOf(Whole(x)) == Abs(x.coef)
    ensures x.scale > 0 ==> Frac(x) != "0" && |Frac(x)| == x.scale && ValueOf(Whole(x) + Frac(x)) == Abs(x.coef)
  {
    var b := Body(x);
    if x.scale == 0 {
      assert b[..|b|] == b;
    } else {
      assert b[..|b| - x.scale] + b[|b| - x.scale..] == b;
      assert Frac(x)[|Frac(x)| - 1] == b[|b| - 1];
    }
  }

  /** The position of the first `c`, or the length. */
  function Find(c: char, s: string): (i: nat)
    ensures i <= |s|
  {
    if |s| == 0 || s[0] == c then 0 else 1 + Find(c, s[1..])
  }

  lemma {:induction false} FindAt(c: char, a: string, b: string)
    requires c !in a && (b == [] || b[0] == c)
    ensures Find(c, a + b) == |a|
  {
    if a == [] {
      assert a + b == b;
    } else {
      assert (a + b)[1..] == a[1..] + b;
      FindAt(c, a[1..], b);
    }
  }

  function Magnitude(s: string): string {
    if s != [] && s[0] == '-' then s[1..] else s
  }

  function Signed(s: string, n: int): int {
    if s != [] && s[0] == '-' then -n else n
  }

  function ReadInt(s: string): int {
    Signed(s, ValueOf(Magnitude(s)))
  }

  function ReadPositional(m: string): Dec {
    var i := Find('.', m);
    var frac := if i < |m| then m[i + 1..] else [];
    if frac == "0" then Dec(ValueOf(m[..i]), 0) else Dec(ValueOf(m[..i] + frac), |frac|)
  }

  /** Digits, how many of them stand behind the point, and an exponent. */
  function Scaled(n: nat, places: nat, e: int): Dec {
    if e >= places then Dec(n * Pow10(e - places), 0) else Dec(n, places - e)
  }

  function ReadScientific(m: string, i: nat): Dec
    requires i < |m|
  {
    var p := Find('.', m[..i]);
    var frac := if p < i then m[p + 1..i] else [];
    var tail := m[i + 1..];
    var e: int := ValueOf(if tail != [] then tail[1..] else []);
    Scaled(ValueOf(m[..p] + frac), |frac|, if tail != [] && tail[0] == '-' then -e else e)
  }

  function ReadMagnitude(m: string): Dec {
    if Find('e', m) < |m| then ReadScientific(m, Find('e', m)) else ReadPositional(m)
  }

  function ReadFloat(s: string): Dec {
    var d := ReadMagnitude(Magnitude(s));
    Dec(Signed(s, d.coef), d.scale)
  }

  lemma SignedText(i: int, body: string)
    requires body != [] && AllDigits(body[..1])
    ensures Magnitude(Sign(i) + body) == body
    ensures Signed(Sign(i) + body, Abs(i)) == i
  {
    assert body[0] in body[..1];
    if i < 0 {
      assert (Sign(i) + body)[1..] == body;
    } else {
      assert Sign(i) + body == body;
    }
  }

  /** Reading back what was written. */
  lemma ReadIntText(i: int)
    ensures ReadInt(IntText(i)) == i
  {
    var d := Digits(Abs(i));
    assert forall c :: c in d[..1] ==> c in d;
    SignedText(i, d);
    ValueOfDigits(Abs(i));
  }

  lemma ReadPositionalText(x: Decimal)
    ensures ReadMagnitude(Positional(x)) == Dec(Abs(x.coef), x.scale)
  {
    hide Body, Whole, Frac, ValueOf;
    var whole, frac := Whole(x), Frac(x);
    var m := whole + ("." + frac);
    NoPoint(whole);
    NoPoint(frac);
    assert 'e' !in m;
    assert m + [] == m;
    FindAt('e', m, []);
    FindAt('.', whole, "." + frac);
    assert m[..|whole|] == whole && m[|whole| + 1..] == frac;
    WholeAndFrac(x);
  }

  /** Trimming divides by a power of ten. */
  lemma {:induction false} TrimScaled(s: string)
    requires s != [] && AllDigits(s)
    ensures ValueOf(s) == ValueOf(TrimZeros(s)) * Pow10(|s| - |TrimZeros(s)|)
    ensures DigitValue(s[|s| - 1]) != 0 ==> TrimZeros(s) == s
    decreases |s|
  {
    if |s| > 1 && s[|s| - 1] == '0' {
      var n := |s| - 1;
      SliceDigits(s, n);
      TrimScaled(s[..n]);
      var r := TrimZeros(s);
      MulTen(ValueOf(r), Pow10(n - |r|));
    }
  }

  lemma SignificantScaled(x: Decimal)
    ensures Abs(x.coef) == ValueOf(Significant(x)) * Pow10(|Digits(Abs(x.coef))| - |Significant(x)|)
    ensures x.scale > 0 ==> Significant(x) == Digits(Abs(x.coef)) && ValueOf(Significant(x)) == Abs(x.coef)
  {
    hide ValueOf, TrimZeros;
    var d := Digits(Abs(x.coef));
    ValueOfDigits(Abs(x.coef));
    TrimScaled(d);
  }

  lemma ReadScaled(x: Decimal)
    ensures Scaled(ValueOf(Significant(x)), |Significant(x)| - 1, Exponent(x)) == Dec(Abs(x.coef), x.scale)
  {
    hide ValueOf, Significant, Digits;
    SignificantScaled(x);
  }

  lemma ReadExponent(e: int)
    ensures var t := ExponentText(e);
      t != [] && (if t[0] == '-' then 0 - ValueOf(t[1..]) else ValueOf(t[1..])) == e
  {
    hide ValueOf;
    var d := Digits(Abs(e));
    ValueOfDigits(Abs(e));
    ValueOfPadded(if |d| < 2 then 2 - |d| else 0, d);
    assert ExponentText(e)[1..] == Padded(d, 2);
  }

  lemma MantissaParts(d: string)
    requires d != [] && AllDigits(d)
    ensures var m := Mantissa(d);
      && 'e' !in m
      && Find('.', m) == 1 && (|d| > 1 <==> 1 < |m|)
      && m[..1] == d[..1] && (if 1 < |m| then m[2..] else []) == d[1..]
  {
    SliceDigits(d, 1);
    NoPoint(d[..1]);
    NoPoint(d[1..]);
    if |d| > 1 {
      FindAt('.', d[..1], "." + d[1..]);
    } else {
      assert d[..1] + [] == d[..1];
      FindAt('.', d[..1], []);
    }
  }

  lemma ReadScientificText(x: Decimal)
    ensures ReadMagnitude(Scientific(x)) == Dec(Abs(x.coef), x.scale)
  {
    hide ValueOf, Significant, Mantissa, ExponentText, Exponent, Scaled, Find;
    var d := Significant(x);
    var head, tail := Mantissa(d), ExponentText(Exponent(x));
    var m := head + ("e" + tail);
    MantissaParts(d);
    FindAt('e', head, "e" + tail);
    assert m[..|head|] == head && m[|head| + 1..] == tail;
    ReadExponent(Exponent(x));
    assert 1 < |head| ==> m[2..|head|] == head[2..];
    assert m[..1] == head[..1];
    assert d[..1] + d[1..] == d;
    ReadScaled(x);
  }

  lemma FloatStarts(x: Decimal)
    ensures Positional(x) != [] && AllDigits(Positional(x)[..1])
    ensures Scientific(x) != [] && AllDigits(Scientific(x)[..1])
  {
    hide Whole, Significant, ExponentText;
    var p, q := Positional(x), Scientific(x);
    assert p[..1] == Whole(x)[..1] && q[..1] == Significant(x)[..1];
    SliceDigits(Whole(x), 1);
    SliceDigits(Significant(x), 1);
  }

  /** Reading back what was written, in either notation. */
  lemma ReadFloatText(x: Decimal)
    ensures ReadFloat(FloatText(x)) == x
  {
    hide Positional, Scientific, Exponent, Sign, Magnitude, Signed, ReadMagnitude;
    FloatStarts(x);
    if -4 <= Exponent(x) < 16 {
      SignedText(x.coef, Positional(x));
      ReadPositionalText(x);
    } else {
      SignedText(x.coef, Scientific(x));
      ReadScientificText(x);
    }
  }

  lemma NoPoint(s: string)
    requires AllDigits(s)
    ensures '.' !in s && 'e' !in s
  {
  }

  /** The characters of a number. */
  predicate NumChar(c: char) {
    '0' <= c <= '9' || c == '-' || c == '+' || c == '.' || c == 'e'
  }

  predicate Numeric(s: string) {
    s != [] && forall c :: c in s ==> NumChar(c)
  }

  /** A float has a point or an exponent, and an integer neither. */
  predicate LooksFloat(s: string) {
    '.' in s || 'e' in s
  }

  lemma IntIsNumeric(i: int)
    ensures Numeric(IntText(i)) && !LooksFloat(IntText(i))
  {
    forall c | c in IntText(i) ensures NumChar(c) && c != '.' && c != 'e' {
      assert c in Sign(i) || c in Digits(Abs(i));
    }
  }

  lemma FloatIsNumeric(x: Decimal)
    ensures Numeric(FloatText(x)) && LooksFloat(FloatText(x))
  {
    hide Whole, Frac, Significant, Exponent, Digits;
    forall c | c in FloatText(x) ensures NumChar(c) {
      if -4 <= Exponent(x) < 16 {
        assert c in Sign(x.coef) || c in Whole(x) || c == '.' || c in Frac(x);
      } else {
        ScientificChar(x, c);
      }
    }
    if -4 <= Exponent(x) < 16 {
      assert FloatText(x)[|Sign(x.coef)| + |Whole(x)|] == '.';
    } else {
      assert FloatText(x)[|Sign(x.coef)| + |Mantissa(Significant(x))|] == 'e';
    }
  }

  lemma ScientificChar(x: Decimal, c: char)
    requires c in Sign(x.coef) + Scientific(x)
    ensures NumChar(c)
  {
    hide Significant, Digits, Exponent, Zeros;
    var d := Significant(x);
    var e := Digits(Abs(Exponent(x)));
    SliceDigits(d, 1);
    assert c in Sign(x.coef) || c in d[..1] || c == '.' || c in d[1..] || c == 'e' || c == '-' || c == '+'
      || c in Zeros(if |e| < 2 then 2 - |e| else 0) || c in e;
  }
}
