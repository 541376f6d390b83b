/**
  Conversions between numbers and text that the generator performs: int(text)
  and float(text) on the contents of the input fields, str() of an int (the DPI
  line and the file name) and str() of a float that round(x, 3) produced (the
  two sensitivity values written to each file).

  Only the plain decimal forms are modelled: an optional sign, digits and, for
  floats, an optional decimal point with digits on either side.
*/
module PyText {
  import opened PyBuiltins

  predicate IsDigit(c: char) { '0' <= c <= '9' }

  predicate AllDigits(s: string) { forall i :: 0 <= i < |s| ==> IsDigit(s[i]) }

  function DigitChar(d: int): (c: char)
    requires 0 <= d < 10
    ensures IsDigit(c) && c as int - '0' as int == d
  {
    ('0' as int + d) as char
  }

  function DigitValue(c: char): int
    requires IsDigit(c)
  {
    c as int - '0' as int
  }

  /** The value of a string of decimal digits (0 for the empty string). */
  function DigitsValue(s: string): nat
    requires AllDigits(s)
    decreases |s|
  {
    if s == [] then 0 else DigitsValue(s[..|s| - 1]) * 10 + DigitValue(s[|s| - 1])
  }

  function Pow10(n: nat): (p: nat)
    ensures p >= 1
  {
    if n == 0 then 1 else 10 * Pow10(n - 1)
  }

  /** The decimal digits of a natural number, without leading zeros. */
  function NatText(n: nat): (s: string)
    ensures s != [] && AllDigits(s)
    ensures |s| > 1 ==> s[0] != '0'
  {
    if n < 10 then [DigitChar(n)] else NatText(n / 10) + [DigitChar(n % 10)]
  }

  /** str(n) for a Python int. */
  function IntText(n: int): string
  {
    if n < 0 then "-" + NatText(-n) else NatText(n)
  }

  /** An optional leading sign, as int() and float() accept it. */
  function SplitSign(s: string): (bool, string)
  {
    if |s| > 0 && s[0] == '-' then (true, s[1..])
    else if |s| > 0 && s[0] == '+' then (false, s[1..])
    else (false, s)
  }

  function Signed(negative: bool, x: real): real
  {
    if negative then -x else x
  }

  /** int(text): a sign and one or more digits, otherwise ValueError. */
  function ParseInt(s: string): Result<int>
  {
    var (negative, body) := SplitSign(s);
    if body != [] && AllDigits(body) then
      Success(if negative then -(DigitsValue(body) as int) else DigitsValue(body))
    else
      Failure(ValueError)
  }

  /** The number of leading digits of s. */
  function DigitPrefix(s: string): (k: nat)
    ensures k <= |s| && AllDigits(s[..k])
    ensures k < |s| ==> !IsDigit(s[k])
  {
    if s == [] || !IsDigit(s[0]) then 0
    else
      var k := 1 + DigitPrefix(s[1..]);
      assert s[..k] == [s[0]] + s[1..][..k - 1];
      k
  }

  /** The value of the digits after a decimal point. */
  function FractionValue(f: string): real
    requires AllDigits(f)
  {
    DigitsValue(f) as real / Pow10(|f|) as real
  }

  /** float(text) without its sign: digits with at most one decimal point and at least one digit. */
  function ParseUnsigned(body: string): Result<real>
  {
    var k := DigitPrefix(body);
    var whole := DigitsValue(body[..k]) as real;
    var rest := body[k..];
    if rest == [] then
      if k == 0 then Failure(ValueError) else Success(whole)
    else if rest[0] == '.' && AllDigits(rest[1..]) && (k > 0 || |rest| > 1) then
      Success(whole + FractionValue(rest[1..]))
    else
      Failure(ValueError)
  }

  /** float(text): an optional sign, then an unsigned decimal, otherwise ValueError. */
  function ParseFloat(s: string): Result<real>
  {
    var (negative, body) := SplitSign(s);
    match ParseUnsigned(body)
    case Success(x) => Success(Signed(negative, x))
    case Failure(e) => Failure(e)
  }

  /**
    The digits after the decimal point of a value with r thousandths: three
    digits with trailing zeros dropped, but at least one digit.
  */
  function FractionText(r: nat): (t: string)
    requires r < 1000
    ensures 1 <= |t| <= 3 && AllDigits(t)
    ensures r != 0 ==> t[|t| - 1] != '0'
  {
    if r % 100 == 0 then [DigitChar(r / 100)]
    else if r % 10 == 0 then [DigitChar(r / 100), DigitChar(r / 10 % 10)]
    else [DigitChar(r / 100), DigitChar(r / 10 % 10), DigitChar(r % 10)]
  }

  /**
    str(x) for the float x that round(_, 3) returned, given as its number m of
    thousandths: Python prints the shortest decimal that reads back as x. While
    neighbouring thousandths are distinct doubles (|x| below about 4e12) that is
    m / 1000 with trailing zeros dropped and at least one fractional digit
    (104.0, 77.931, 0.05).
  */
  function MillisText(m: int): string
  {
    var a := if m < 0 then -m else m;
    (if m < 0 then "-" else "") + NatText(a / 1000) + "." + FractionText(a % 1000)
  }

  // ---------------------------------------------------------------------------
  // Round trips

  lemma DigitsValueSingle(c: char)
    requires IsDigit(c)
    ensures DigitsValue([c]) == DigitValue(c)
  {
    assert [c][..0] == [];
  }

  lemma {:induction false} NatTextRoundTrip(n: nat)
    ensures DigitsValue(NatText(n)) == n
  {
    var s := NatText(n);
    if n < 10 {
      DigitsValueSingle(s[0]);
    } else {
      NatTextRoundTrip(n / 10);
      assert s[..|s| - 1] == NatText(n / 10);
    }
  }

  /** int(str(n)) == n. */
  lemma ParseIntText(n: int)
    ensures ParseInt(IntText(n)) == Success(n)
  {
    if n < 0 {
      NatTextRoundTrip(-n);
      assert SplitSign(IntText(n)) == (true, NatText(-n));
    } else {
      NatTextRoundTrip(n);
      var s := NatText(n);
      assert IsDigit(s[0]);
    }
  }

  lemma IntTextInjective(a: int, b: int)
    requires IntText(a) == IntText(b)
    ensures a == b
  {
    ParseIntText(a);
    ParseIntText(b);
  }

  /** No text made only of digits contains a line break. */
  lemma IntTextHasNoNewline(n: int)
    ensures '\n' !in IntText(n)
  {
    var s := NatText(if n < 0 then -n else n);
    assert forall i :: 0 <= i < |s| ==> s[i] != '\n';
  }

  lemma MillisTextHasNoNewline(m: int)
    ensures '\n' !in MillisText(m)
  {
    var a := if m < 0 then -m else m;
    var d, f := NatText(a / 1000), FractionText(a % 1000);
    assert forall i :: 0 <= i < |d| ==> d[i] != '\n';
    assert forall i :: 0 <= i < |f| ==> f[i] != '\n';
  }

  lemma {:induction false} DigitPrefixOfDigitsThen(d: string, t: string)
    requires AllDigits(d)
    requires t != [] && !IsDigit(t[0])
    ensures DigitPrefix(d + t) == |d|
  {
    if d != [] {
      assert (d + t)[1..] == d[1..] + t;
      DigitPrefixOfDigitsThen(d[1..], t);
    } else {
      assert d + t == t;
    }
  }

  lemma DigitsValuePair(x: char, y: char)
    requires IsDigit(x) && IsDigit(y)
    ensures DigitsValue([x, y]) == 10 * DigitValue(x) + DigitValue(y)
  {
    assert [x, y][..1] == [x];
    DigitsValueSingle(x);
  }

  lemma DigitsValueTriple(x: char, y: char, z: char)
    requires IsDigit(x) && IsDigit(y) && IsDigit(z)
    ensures DigitsValue([x, y, z]) == 100 * DigitValue(x) + 10 * DigitValue(y) + DigitValue(z)
  {
    assert [x, y, z][..2] == [x, y];
    DigitsValuePair(x, y);
  }

  /** The digits of FractionText(r), read as an integer and scaled back to three places, give r. */
  lemma FractionTextDigits(r: nat)
    requires r < 1000
    ensures DigitsValue(FractionText(r)) * Pow10(3 - |FractionText(r)|) == r
  {
    var a, b, c := r / 100, r / 10 % 10, r % 10;
    assert r == 100 * a + 10 * b + c;
    assert Pow10(0) == 1 && Pow10(1) == 10 && Pow10(2) == 100;
    if r % 100 == 0 {
      DigitsValueSingle(DigitChar(a));
    } else if r % 10 == 0 {
      DigitsValuePair(DigitChar(a), DigitChar(b));
    } else {
      DigitsValueTriple(DigitChar(a), DigitChar(b), DigitChar(c));
    }
  }

  lemma FractionTextValue(r: nat)
    requires r < 1000
    ensures FractionValue(FractionText(r)) == r as real / 1000.0
  {
    var t := FractionText(r);
    var d := DigitsValue(t);
    FractionTextDigits(r);
    assert Pow10(0) == 1 && Pow10(1) == 10 && Pow10(2) == 100 && Pow10(3) == 1000;
    if |t| == 1 {
      assert d * 100 == r;
    } else if |t| == 2 {
      assert d * 10 == r;
    } else {
      assert d == r;
    }
  }

  lemma {:induction false} DigitPrefixOfDigits(d: string)
    requires AllDigits(d)
    ensures DigitPrefix(d) == |d|
  {
    if d != [] {
      DigitPrefixOfDigits(d[1..]);
    }
  }

  /** float(str(n)) == n for a natural number n. */
  lemma ParseFloatNatText(n: nat)
    ensures ParseFloat(NatText(n)) == Success(n as real)
  {
    var s := NatText(n);
    DigitPrefixOfDigits(s);
    NatTextRoundTrip(n);
    assert IsDigit(s[0]);
    assert SplitSign(s) == (false, s);
    assert s[..|s|] == s;
  }

  lemma ParseUnsignedDecimal(d: string, f: string)
    requires d != [] && AllDigits(d) && AllDigits(f)
    ensures ParseUnsigned(d + "." + f) == Success(DigitsValue(d) as real + FractionValue(f))
  {
    var body := d + "." + f;
    assert body == d + ("." + f);
    DigitPrefixOfDigitsThen(d, "." + f);
    assert body[..|d|] == d;
    assert body[|d|..] == "." + f;
    assert ("." + f)[1..] == f;
  }

  lemma UnsignedMillis(a: nat)
    ensures ParseUnsigned(NatText(a / 1000) + "." + FractionText(a % 1000)) == Success(a as real / 1000.0)
  {
    var q, r := a / 1000, a % 1000;
    ParseUnsignedDecimal(NatText(q), FractionText(r));
    NatTextRoundTrip(q);
    FractionTextValue(r);
    assert a as real == q as real * 1000.0 + r as real;
  }

  /** The text of a rounded value splits into its sign and its unsigned decimal. */
  lemma SplitSignOfMillis(m: int)
    ensures var a := if m < 0 then -m else m;
      SplitSign(MillisText(m)) == (m < 0, NatText(a / 1000) + "." + FractionText(a % 1000))
  {
    var a := if m < 0 then -m else m;
    var body := NatText(a / 1000) + "." + FractionText(a % 1000);
    if m < 0 {
      assert MillisText(m) == "-" + body;
      assert ("-" + body)[1..] == body;
    } else {
      assert MillisText(m) == body;
      assert body[0] == NatText(a / 1000)[0];
    }
  }

  /** float(str(x)) == x for every value round(_, 3) can produce. */
  lemma ParseMillisText(m: int)
    ensures ParseFloat(MillisText(m)) == Success(Thousandths(m))
  {
    var a := if m < 0 then -m else m;
    UnsignedMillis(a);
    SplitSignOfMillis(m);
    assert Signed(m < 0, a as real / 1000.0) == Thousandths(m);
  }
}
