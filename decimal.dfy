/**
 * Plain decimal rendering of an integer, as a C++ output stream writes an
 * `int` with default formatting: an optional minus sign followed by the
 * digits of the magnitude, most significant first, with no leading zeros.
 * ParseDecimal is its exact inverse on canonical decimal text.
 */
module Decimal {
  import opened Wrappers

  predicate IsDigit(c: char) { '0' <= c <= '9' }

  predicate AllDigits(s: string) { forall i :: 0 <= i < |s| ==> IsDigit(s[i]) }

  /** Non-empty digit strings without a leading zero (except "0" itself). */
  predicate IsCanonicalNat(s: string) {
    |s| >= 1 && AllDigits(s) && (s[0] == '0' ==> |s| == 1)
  }

  function DigitValue(c: char): (d: nat)
    requires IsDigit(c)
    ensures d < 10
  {
    c as int - '0' as int
  }

  function DigitChar(d: nat): (c: char)
    requires d < 10
    ensures IsDigit(c) && DigitValue(c) == d
  {
    ('0' as int + d) as char
  }

  /** The value of a digit string read most significant digit first. */
  function DigitsValue(s: string): nat
    requires AllDigits(s)
  {
    if s == [] then 0 else DigitsValue(s[..|s| - 1]) * 10 + DigitValue(s[|s| - 1])
  }

  /** The decimal digits of n; the result is always canonical. */
  function NatToDecimal(n: nat): (r: string)
    ensures IsCanonicalNat(r)
    ensures r[0] == '0' <==> n == 0
  {
    if n < 10 then [DigitChar(n)] else NatToDecimal(n / 10) + [DigitChar(n % 10)]
  }

  /** How `std::ostream << int` renders t. */
  function IntToDecimal(t: int): (r: string)
    ensures |r| >= 1
    ensures r[0] == '-' <==> t < 0
    ensures forall i :: 0 <= i < |r| ==> IsDigit(r[i]) || (i == 0 && r[i] == '-')
  {
    if t < 0 then "-" + NatToDecimal(-t) else NatToDecimal(t)
  }

  /** Reads canonical decimal text back; "-0", leading zeros and stray characters are refused. */
  function ParseDecimal(s: string): Option<int> {
    if |s| >= 2 && s[0] == '-' && IsCanonicalNat(s[1..]) && s[1] != '0' then Some(-(DigitsValue(s[1..]) as int))
    else if IsCanonicalNat(s) then Some(DigitsValue(s) as int)
    else None
  }

  lemma {:induction false} NatToDecimalValue(n: nat)
    ensures DigitsValue(NatToDecimal(n)) == n
  {
    if n >= 10 {
      var r := NatToDecimal(n);
      NatToDecimalValue(n / 10);
      assert r[..|r| - 1] == NatToDecimal(n / 10);
    }
  }

  lemma {:induction false} LeadingDigitPositive(s: string)
    requires IsCanonicalNat(s) && s[0] != '0'
    ensures DigitsValue(s) > 0
  {
    if |s| > 1 {
      LeadingDigitPositive(s[..|s| - 1]);
    }
  }

  lemma {:induction false} DecimalOfDigitsValue(s: string)
    requires IsCanonicalNat(s)
    ensures NatToDecimal(DigitsValue(s)) == s
  {
    if |s| > 1 {
      var p := s[..|s| - 1];
      LeadingDigitPositive(p);
      DecimalOfDigitsValue(p);
      var v := DigitsValue(s);
      assert v / 10 == DigitsValue(p) && v % 10 == DigitValue(s[|s| - 1]);
      assert s == p + [s[|s| - 1]];
    }
  }

  /** Reading the rendering of any integer gives that integer back. */
  lemma DecimalRoundTrip(t: int)
    ensures ParseDecimal(IntToDecimal(t)) == Some(t)
  {
    var r := IntToDecimal(t);
    if t < 0 {
      NatToDecimalValue(-t);
      assert r[1..] == NatToDecimal(-t);
    } else {
      NatToDecimalValue(t);
    }
  }

  /** Whatever ParseDecimal accepts is exactly the rendering of its value. */
  lemma DecimalCanonical(s: string)
    requires ParseDecimal(s).Some?
    ensures IntToDecimal(ParseDecimal(s).value) == s
  {
    if |s| >= 2 && s[0] == '-' && IsCanonicalNat(s[1..]) && s[1] != '0' {
      LeadingDigitPositive(s[1..]);
      DecimalOfDigitsValue(s[1..]);
      assert s == "-" + s[1..];
    } else {
      DecimalOfDigitsValue(s);
    }
  }
}
