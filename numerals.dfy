/**
 * Decimal text of integers: Python's `str(n)` for an `int`, and the integer
 * parse that the serializers' IntegerField applies to its input.
 */
module Numerals {
  import opened Wrappers

  predicate IsDigit(c: char) {
    '0' <= c <= '9'
  }

  predicate AllDigits(s: string) {
    forall i :: 0 <= i < |s| ==> IsDigit(s[i])
  }

  function DigitChar(d: nat): (c: char)
    requires d < 10
    ensures IsDigit(c)
  {
    ('0' as int + d) as char
  }

  function DigitValue(c: char): (d: nat)
    requires IsDigit(c)
    ensures d < 10 && DigitChar(d) == c
  {
    c as int - '0' as int
  }

  /** The decimal digits of `n`, most significant first, without leading zeros. */
  function NatDigits(n: nat): (s: string)
    ensures |s| >= 1 && AllDigits(s)
    ensures |s| > 1 ==> s[0] != '0'
    decreases n
  {
    if n < 10 then [DigitChar(n)] else NatDigits(n / 10) + [DigitChar(n % 10)]
  }

  /** The number a non-empty string of decimal digits denotes. */
  function DigitsValue(s: string): nat
    requires AllDigits(s)
    decreases |s|
  {
    if s == [] then 0 else DigitsValue(s[..|s| - 1]) * 10 + DigitValue(s[|s| - 1])
  }

  /** Python's `str(n)`: a minus sign for negative numbers, then the digits. */
  function DecimalString(n: int): string {
    if n < 0 then "-" + NatDigits(-n) else NatDigits(n)
  }

  /** `s` is an optional `+` or `-` followed by one or more decimal digits. */
  predicate IsIntegerText(s: string) {
    if |s| > 0 && (s[0] == '-' || s[0] == '+') then |s| > 1 && AllDigits(s[1..]) else |s| > 0 && AllDigits(s)
  }

  /**
   * `int(s)` on an optional sign followed by decimal digits; anything else
   * is refused. The value is that of the digits, negated under a `-`.
   */
  function ParseInteger(s: string): (r: Option<int>)
    ensures r.Some? <==> IsIntegerText(s)
    ensures r.Some? && s[0] == '-' ==> r.value == -(DigitsValue(s[1..]) as int) && r.value <= 0
    ensures r.Some? && s[0] == '+' ==> r.value == DigitsValue(s[1..]) && r.value >= 0
    ensures r.Some? && s[0] != '-' && s[0] != '+' ==> r.value == DigitsValue(s) && r.value >= 0
  {
    if |s| > 0 && (s[0] == '-' || s[0] == '+') then
      var digits := s[1..];
      if |digits| > 0 && AllDigits(digits) then
        var magnitude: int := DigitsValue(digits);
        Some(if s[0] == '-' then -magnitude else magnitude)
      else None
    else if |s| > 0 && AllDigits(s) then Some(DigitsValue(s))
    else None
  }

  lemma {:induction false} DigitsRoundTrip(n: nat)
    ensures DigitsValue(NatDigits(n)) == n
    decreases n
  {
    var s := NatDigits(n);
    if n >= 10 {
      DigitsRoundTrip(n / 10);
      assert s[..|s| - 1] == NatDigits(n / 10);
      assert s[|s| - 1] == DigitChar(n % 10);
    }
  }

  /** A digit string reads as its value with or without a `+`, and as its negation after a `-`. */
  lemma ParseSignedDigits(d: string)
    requires |d| > 0 && AllDigits(d)
    ensures ParseInteger(d) == Some(DigitsValue(d) as int)
    ensures ParseInteger("+" + d) == Some(DigitsValue(d) as int)
    ensures ParseInteger("-" + d) == Some(-(DigitsValue(d) as int))
  {
    var plus := "+" + d;
    var minus := "-" + d;
    assert plus[1..] == d && plus[0] == '+';
    assert minus[1..] == d && minus[0] == '-';
    assert !IsDigit('+') && !IsDigit('-');
    assert d[0] != '-' && d[0] != '+' by { assert IsDigit(d[0]); }
  }

  /** Leading zeros, which `str` never writes, do not change what a text parses to. */
  lemma LeadingZeroIgnored(d: string)
    requires |d| > 0 && AllDigits(d)
    ensures ParseInteger("0" + d) == ParseInteger(d)
  {
    LeadingZeroValue(d);
    ParseSignedDigits(d);
    ParseSignedDigits("0" + d);
  }

  /** A leading zero adds nothing to the value of a digit string. */
  lemma {:induction false} LeadingZeroValue(d: string)
    requires AllDigits(d)
    ensures AllDigits("0" + d) && DigitsValue("0" + d) == DigitsValue(d)
    decreases |d|
  {
    if d != [] {
      var z := "0" + d;
      assert z[..|z| - 1] == "0" + d[..|d| - 1];
      LeadingZeroValue(d[..|d| - 1]);
    }
  }

  /** Parsing the text `str(n)` gives back `n`. */
  lemma ParseDecimalRoundTrip(n: int)
    ensures ParseInteger(DecimalString(n)) == Some(n)
  {
    if n < 0 {
      DigitsRoundTrip(-n);
      ParseSignedDigits(NatDigits(-n));
    } else {
      DigitsRoundTrip(n);
      ParseSignedDigits(NatDigits(n));
    }
  }

  /** A minus sign in `str(n)` can only be its first character. */
  lemma DecimalStringHasNoInnerDash(n: int)
    ensures forall i :: 0 < i < |DecimalString(n)| ==> DecimalString(n)[i] != '-'
  {
    var s := DecimalString(n);
    forall i | 0 < i < |s| ensures s[i] != '-' {
      if n < 0 {
        assert s[i] == NatDigits(-n)[i - 1];
      }
    }
  }
}
