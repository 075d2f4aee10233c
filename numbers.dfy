/** Python's `float()`/`int()` on decimal text and the `%.2f` format, over
    exact rationals. Exponents, `inf`/`nan` and `_` digit separators are not
    part of this model; rounding of a third decimal is half-up. */
module Numbers {
  import opened Common
  import opened Text

  /** The value of the digits `frac` written after a decimal point. */
  function FracValue(frac: string): (v: real)
    ensures v >= 0.0
  {
    if frac == [] then 0.0 else (DigitValue(frac[0]) as real + FracValue(frac[1..])) / 10.0
  }

  /** The value of the decimal `whole.frac`. */
  function DecimalValue(whole: string, frac: string): real {
    DigitsValue(whole) as real + FracValue(frac)
  }

  /** An unsigned decimal as `float()` reads it: `D`, `D.`, `.F` or `D.F`. */
  function ParseUnsigned(s: string): Option<real> {
    var parts := Split(s, '.');
    if |parts| == 1 && s != "" && AllDigits(s) then Some(DigitsValue(s) as real)
    else if |parts| == 2 && AllDigits(parts[0]) && AllDigits(parts[1]) && |parts[0]| + |parts[1]| > 0 then
      Some(DecimalValue(parts[0], parts[1]))
    else None
  }

  /** `float(s)`: surrounding whitespace and one sign are allowed. */
  function ParseFloat(s: string): Option<real> {
    var t := Strip(s);
    if t != "" && t[0] == '-' then
      match ParseUnsigned(t[1..])
      case Some(v) => Some(-v)
      case None => None
    else if t != "" && t[0] == '+' then ParseUnsigned(t[1..])
    else ParseUnsigned(t)
  }

  /** `int(s)`: surrounding whitespace, one sign, then decimal digits. */
  function ParseInt(s: string): Option<int> {
    var t := Strip(s);
    var neg := t != "" && t[0] == '-';
    var body := if t != "" && (t[0] == '-' || t[0] == '+') then t[1..] else t;
    var v: int := DigitsValue(body);
    if body != "" && AllDigits(body) then Some(if neg then -v else v)
    else None
  }

  /** `float()` reads digits, a point and digits as that decimal. */
  lemma ParseDecimalText(w: string, f: string)
    requires w != [] && AllDigits(w) && AllDigits(f)
    ensures ParseFloat(w + "." + f) == Some(DecimalValue(w, f))
  {
    var t := w + "." + f;
    assert t[0] == w[0];
    assert t[|t| - 1] == if f == [] then '.' else f[|f| - 1];
    StripUnpadded(t);
    assert '.' !in w && '.' !in f;
    SplitAroundSep(w, f, '.');
  }

  /** `int(v)` for a float: truncation toward zero. */
  function Truncate(v: real): int {
    if v >= 0.0 then v.Floor else -((-v).Floor)
  }

  function TwoDigits(n: nat): string
    requires n < 100
  {
    [DigitChar(n / 10), DigitChar(n % 10)]
  }

  /** An amount of `c` cents written `D.CC`. */
  function CentsText(c: nat): string {
    NatToString(c / 100) + "." + TwoDigits(c % 100)
  }

  /** Whole cents of a non-negative amount, a third decimal rounding half up. */
  function Cents(v: real): nat
    requires v >= 0.0
  {
    (v * 100.0 + 0.5).Floor
  }

  /** `f"{v:.2f}"` */
  function Fixed2(v: real): string {
    if v < 0.0 then "-" + CentsText(Cents(-v)) else CentsText(Cents(v))
  }

  /** `f"${v:.2f}"` */
  function Money(v: real): string { "$" + Fixed2(v) }

  lemma CentsOfCents(c: nat)
    ensures Cents(c as real / 100.0) == c
  {
    assert c as real / 100.0 * 100.0 == c as real;
  }

  /** Two digits after the point are worth their value in hundredths. */
  lemma FracValueOfTwoDigits(n: nat)
    requires n < 100
    ensures FracValue(TwoDigits(n)) == n as real / 100.0
  {
    var t := TwoDigits(n);
    assert t[1..][1..] == [];
    assert FracValue(t[1..]) == (n % 10) as real / 10.0;
    assert n == (n / 10) * 10 + n % 10;
  }

  /** `D.CC` reads back as the amount it writes. */
  lemma CentsTextValue(c: nat)
    ensures ParseUnsigned(CentsText(c)) == Some(c as real / 100.0)
  {
    var w := NatToString(c / 100);
    var f := TwoDigits(c % 100);
    assert CentsText(c) == w + ['.'] + f;
    assert '.' !in w;
    SplitAroundSep(w, f, '.');
    SplitAtLeastTwo(CentsText(c), '.');
    DigitsValueOfNatToString(c / 100);
    FracValueOfTwoDigits(c % 100);
    assert c == (c / 100) * 100 + c % 100;
    assert DecimalValue(w, f) == (c / 100) as real + (c % 100) as real / 100.0;
  }

  /** `%.2f` of a whole number of cents writes exactly those cents. */
  lemma Fixed2OfCents(c: nat)
    ensures Fixed2(c as real / 100.0) == CentsText(c)
  {
    CentsOfCents(c);
  }

  /** `D.CC` starts and ends with a digit. */
  lemma CentsTextEnds(c: nat)
    ensures CentsText(c) != [] && IsDigit(CentsText(c)[0]) && IsDigit(CentsText(c)[|CentsText(c)| - 1])
  {
    var t := CentsText(c);
    assert t[0] == NatToString(c / 100)[0];
    assert t[|t| - 1] == DigitChar(c % 100 % 10);
  }

  lemma UnsignedCentsFloat(c: nat)
    ensures ParseFloat(CentsText(c)) == Some(c as real / 100.0)
  {
    CentsTextEnds(c);
    StripUnpadded(CentsText(c));
    CentsTextValue(c);
  }

  lemma MinusCentsFloat(m: nat)
    ensures ParseFloat("-" + CentsText(m)) == Some(-(m as real / 100.0))
  {
    var t := "-" + CentsText(m);
    CentsTextEnds(m);
    assert t[|t| - 1] == CentsText(m)[|CentsText(m)| - 1];
    StripUnpadded(t);
    assert t[1..] == CentsText(m);
    CentsTextValue(m);
  }

  /** `%.2f` of a non-negative whole number of cents is exact, and
      `float()` reads it back. */
  lemma Fixed2RoundTrip(c: nat)
    ensures ParseFloat(Fixed2(c as real / 100.0)) == Some(c as real / 100.0)
  {
    Fixed2OfCents(c);
    UnsignedCentsFloat(c);
  }

  /** `%.2f` of a negative amount of `m` cents is `-` and the cents, and
      `float()` reads it back too. */
  lemma NegativeRoundTrip(m: nat)
    requires m > 0
    ensures Fixed2(-(m as real / 100.0)) == "-" + CentsText(m)
    ensures ParseFloat(Fixed2(-(m as real / 100.0))) == Some(-(m as real / 100.0))
  {
    CentsOfCents(m);
    MinusCentsFloat(m);
  }
}
