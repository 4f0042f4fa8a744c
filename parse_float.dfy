/** JavaScript's global `parseFloat`: skip leading white space, then read the longest
    prefix that is a decimal literal (optional sign, `Infinity`, or digits with an
    optional fraction and exponent); NaN when there is none. The value is the exact
    decimal, not the nearest double. */
module JsParseFloat {
  import opened Text
  import opened JsValues

  /** The length of the run of decimal digits that starts `s`. */
  function DigitRun(s: string): (n: nat)
    ensures n <= |s| && AllDigits(s[..n])
    ensures n == |s| || !IsDigit(s[n])
  {
    if s != [] && IsDigit(s[0]) then 1 + DigitRun(s[1..]) else 0
  }

  function Pow10(e: nat): (p: nat)
    ensures p >= 1
  {
    if e == 0 then 1 else 10 * Pow10(e - 1)
  }

  /** `m` times ten to the power `e`. */
  function Scale(m: real, e: int): real {
    if e >= 0 then m * Pow10(e) as real else m / Pow10(-e) as real
  }

  predicate StartsWith(s: string, prefix: string) {
    |prefix| <= |s| && s[..|prefix|] == prefix
  }

  /** The exponent part `e`/`E`, optional sign, digits at the start of `s`; 0 when absent. */
  function Exponent(s: string): int {
    if s != [] && (s[0] == 'e' || s[0] == 'E') then
      var signed := |s| > 1 && (s[1] == '-' || s[1] == '+');
      var digits := if signed then s[2..] else s[1..];
      var e: int := DigitsValue(digits[..DigitRun(digits)]);
      if signed && s[1] == '-' then -e else e
    else 0
  }

  /** The value of the digits before and after the decimal point. */
  function Mantissa(whole: string, fraction: string): real
    requires AllDigits(whole) && AllDigits(fraction)
  {
    DigitsValue(whole) as real + DigitsValue(fraction) as real / Pow10(|fraction|) as real
  }

  function Negate(x: Number): Number {
    match x
    case NaN => NaN
    case Infinity(negative) => Infinity(!negative)
    case Finite(r) => Finite(-r)
  }

  /** `u` starts with a digit, or with a point followed by a digit. */
  predicate DecimalStart(u: string) {
    (u != [] && IsDigit(u[0])) || (|u| >= 2 && u[0] == '.' && IsDigit(u[1]))
  }

  /** `u` starts with `Infinity` or a decimal start. */
  predicate UnsignedStart(u: string) {
    StartsWith(u, "Infinity") || DecimalStart(u)
  }

  /** After an optional sign, `t` starts with `Infinity`, a digit, or a point followed by
      a digit: the shortest starts of a decimal literal. */
  predicate NumericPrefix(t: string) {
    UnsignedStart(if t != [] && (t[0] == '-' || t[0] == '+') then t[1..] else t)
  }

  /** `parseFloat(s)`: NaN exactly when the text after the leading white space does not
      start a decimal literal. */
  function ParseFloat(s: string): (n: Number)
    ensures n.NaN? <==> !NumericPrefix(TrimStart(s))
  {
    ParseSigned(TrimStart(s))
  }

  /** An optional sign, then an unsigned literal. */
  function ParseSigned(t: string): (n: Number)
    ensures n.NaN? <==> !NumericPrefix(t)
  {
    if t != [] && t[0] == '-' then Negate(ParseUnsigned(t[1..]))
    else if t != [] && t[0] == '+' then ParseUnsigned(t[1..])
    else ParseUnsigned(t)
  }

  function ParseUnsigned(u: string): (n: Number)
    ensures n.NaN? <==> !UnsignedStart(u)
  {
    if StartsWith(u, "Infinity") then Infinity(false) else ParseDecimal(u)
  }

  /** Digits, an optional `.` and digits, an optional exponent; at least one digit. */
  function ParseDecimal(u: string): (n: Number)
    ensures n.NaN? <==> !DecimalStart(u)
    ensures !n.Infinity?
  {
    var whole := DigitRun(u);
    var dot := whole < |u| && u[whole] == '.';
    var afterDot := if dot then u[whole + 1..] else [];
    var frac := DigitRun(afterDot);
    if whole == 0 && frac == 0 then NaN
    else
      var rest := if dot then afterDot[frac..] else u[whole..];
      Finite(Scale(Mantissa(u[..whole], afterDot[..frac]), Exponent(rest)))
  }

  /** A run of digits is read to its end. */
  lemma {:induction false} DigitRunAll(s: string)
    requires AllDigits(s)
    ensures DigitRun(s) == |s|
  {
    if s != [] {
      DigitRunAll(s[1..]);
    }
  }

  /** The decimal text of a natural number is read as a decimal literal to its end. */
  lemma NatTextDecimal(n: nat)
    ensures ParseDecimal(NatText(n)) == Finite(n as real)
  {
    var s := NatText(n);
    DigitRunAll(s);
    assert s[..|s|] == s;
    NatTextValue(n);
    assert DigitsValue([]) == 0;
    assert s[|s|..] == [];
  }

  /** The decimal text of a natural number is an unsigned literal other than `Infinity`. */
  lemma NatTextUnsigned(n: nat)
    ensures ParseUnsigned(NatText(n)) == Finite(n as real)
  {
    var s := NatText(n);
    assert s[0] != 'I';
    NatTextDecimal(n);
  }

  /** A text that starts with a digit has no white space or sign to skip. */
  lemma DigitFirst(u: string)
    requires u != [] && IsDigit(u[0])
    ensures ParseFloat(u) == ParseUnsigned(u)
  {
    assert TrimStart(u) == u;
  }

  /** A minus sign in front of a text that starts with a digit negates it. */
  lemma MinusDigitFirst(u: string)
    requires u != [] && IsDigit(u[0])
    ensures ParseFloat("-" + u) == Negate(ParseUnsigned(u))
  {
    var s := "-" + u;
    assert TrimStart(s) == s;
    assert s[1..] == u;
  }

  /** The decimal text of a natural number parses back to that number. */
  lemma NatTextParses(n: nat)
    ensures ParseFloat(NatText(n)) == Finite(n as real)
  {
    DigitFirst(NatText(n));
    NatTextUnsigned(n);
  }

  /** A minus sign in front of the decimal text of `n` parses to `-n`. */
  lemma NegatedNatTextParses(n: nat)
    ensures ParseFloat("-" + NatText(n)) == Finite(-(n as real))
  {
    MinusDigitFirst(NatText(n));
    NatTextUnsigned(n);
  }

  /** A run of digits followed by a non-digit is read up to the non-digit. */
  lemma {:induction false} DigitRunStops(w: string, rest: string)
    requires AllDigits(w) && (rest == [] || !IsDigit(rest[0]))
    ensures DigitRun(w + rest) == |w|
  {
    if w == [] {
      assert w + rest == rest;
    } else {
      assert (w + rest)[1..] == w[1..] + rest;
      DigitRunStops(w[1..], rest);
    }
  }

  /** Digits, a point and digits are read as a decimal literal to the end. */
  lemma FractionDecimal(w: string, f: string)
    requires AllDigits(w) && AllDigits(f) && w != [] && f != []
    ensures ParseDecimal(w + "." + f) == Finite(Mantissa(w, f))
  {
    var u := w + "." + f;
    assert u == w + ("." + f);
    DigitRunStops(w, "." + f);
    assert u[..|w|] == w && u[|w|] == '.' && u[|w| + 1..] == f;
    PointDecimal(u, w, f);
  }

  /** A text whose digit run `w` is followed by a point and the digits `f` up to its end
      is worth `w.f`. */
  lemma PointDecimal(u: string, w: string, f: string)
    requires AllDigits(w) && AllDigits(f) && w != [] && f != []
    requires DigitRun(u) == |w| && |w| < |u| && u[..|w|] == w && u[|w|] == '.'
    requires u[|w| + 1..] == f
    ensures ParseDecimal(u) == Finite(Mantissa(w, f))
  {
    DigitRunAll(f);
    assert f[..|f|] == f && f[|f|..] == [];
    assert Exponent([]) == 0;
    ScaleByOne(Mantissa(w, f));
  }

  lemma ScaleByOne(m: real)
    ensures Scale(m, 0) == m
  {
    assert Pow10(0) == 1;
  }

  /** The same text is an unsigned literal other than `Infinity`. */
  lemma FractionUnsigned(w: string, f: string)
    requires AllDigits(w) && AllDigits(f) && w != [] && f != []
    ensures ParseUnsigned(w + "." + f) == Finite(Mantissa(w, f))
  {
    assert (w + "." + f)[0] == w[0];
    FractionDecimal(w, f);
  }

  /** `parseFloat` of digits, a point and digits is their exact value. */
  lemma FractionParses(w: string, f: string)
    requires AllDigits(w) && AllDigits(f) && w != [] && f != []
    ensures ParseFloat(w + "." + f) == Finite(Mantissa(w, f))
  {
    assert (w + "." + f)[0] == w[0];
    DigitFirst(w + "." + f);
    FractionUnsigned(w, f);
  }

  /** A minus sign in front of digits, a point and digits negates their value, so a
      negative fractional amount is at most zero. */
  lemma NegatedFractionParses(w: string, f: string)
    requires AllDigits(w) && AllDigits(f) && w != [] && f != []
    ensures ParseFloat("-" + (w + "." + f)) == Finite(-Mantissa(w, f))
    ensures AtMostZero(ParseFloat("-" + (w + "." + f)))
  {
    NegatedFraction(w, f);
    MantissaAtLeastZero(w, f);
  }

  lemma MantissaAtLeastZero(w: string, f: string)
    requires AllDigits(w) && AllDigits(f)
    ensures Mantissa(w, f) >= 0.0
  {
    var a := DigitsValue(f) as real;
    var b := Pow10(|f|) as real;
    assert a / b * b == a;
  }

  lemma NegatedFraction(w: string, f: string)
    requires AllDigits(w) && AllDigits(f) && w != [] && f != []
    ensures ParseFloat("-" + (w + "." + f)) == Negate(Finite(Mantissa(w, f)))
  {
    var u := w + "." + f;
    assert u[0] == w[0];
    MinusDigitFirst(u);
    FractionUnsigned(w, f);
  }

  /** `parseFloat("0.5")` is one half and `parseFloat("-0.5")` minus one half. */
  lemma HalfParses()
    ensures ParseFloat("0.5") == Finite(0.5)
    ensures ParseFloat("-0.5") == Finite(-0.5)
  {
    assert "0.5" == "0" + "." + "5";
    assert "-0.5" == "-" + ("0" + "." + "5");
    FractionParses("0", "5");
    NegatedFractionParses("0", "5");
    HalfMantissa();
  }

  lemma HalfMantissa()
    ensures Mantissa("0", "5") == 0.5
  {
    assert DigitsValue("0") == 0;
    assert DigitsValue("5") == 5;
    assert Pow10(1) == 10;
  }

  /** A text with no digit and no `Infinity` in it parses to NaN. */
  lemma NoDigitIsNaN(s: string)
    requires forall i :: 0 <= i < |s| ==> !IsDigit(s[i])
    requires forall i :: !OccursAt(s, "Infinity", i)
    ensures ParseFloat(s) == NaN
  {
    var t := TrimStart(s);
    var u := if t != [] && (t[0] == '-' || t[0] == '+') then t[1..] else t;
    var k := |s| - |u|;
    assert u == s[k..];
    assert !OccursAt(s, "Infinity", k);
    NoDigitUnsigned(u);
  }

  lemma NoDigitUnsigned(u: string)
    requires forall i :: 0 <= i < |u| ==> !IsDigit(u[i])
    requires !StartsWith(u, "Infinity")
    ensures ParseUnsigned(u) == NaN
  {
    assert DigitRun(u) == 0;
    if 0 < |u| && u[0] == '.' {
      var afterDot := u[1..];
      assert afterDot == [] || !IsDigit(afterDot[0]);
    }
  }

  /** `parseFloat("Infinity")` is positive infinity. */
  lemma InfinityParses()
    ensures ParseFloat("Infinity") == Infinity(false)
  {
    assert TrimStart("Infinity") == "Infinity";
    assert StartsWith("Infinity", "Infinity");
  }

  /** `parseFloat("abc")` is NaN. */
  lemma LettersAreNaN()
    ensures ParseFloat("abc") == NaN
  {
    NoDigitIsNaN("abc");
  }
}
