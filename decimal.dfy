/** Decimal text of integers, as a JavaScript template literal renders a
    status code (`${resp.status}`) and as a Python f-string renders a year
    or an employee count: shortest form, no leading zeros, a leading `-`
    for negatives. */
module Numerals {
  import opened Upload

  predicate IsDigit(c: char)
  {
    '0' <= c <= '9'
  }

  predicate AllDigits(s: string)
  {
    forall i :: 0 <= i < |s| ==> IsDigit(s[i])
  }

  function DigitChar(d: nat): (c: char)
    requires d < 10
    ensures IsDigit(c) && c as int - '0' as int == d
  {
    ('0' as int + d) as char
  }

  function DigitValue(c: char): (d: nat)
    requires IsDigit(c)
    ensures d < 10 && DigitChar(d) == c
  {
    c as int - '0' as int
  }

  /** The decimal text of `n`: non-empty, digits only, and starting with
      `0` only for zero itself. */
  function Decimal(n: nat): (s: string)
    ensures |s| >= 1 && AllDigits(s)
    ensures s[0] == '0' ==> n == 0 && s == "0"
    decreases n
  {
    if n < 10 then [DigitChar(n)] else Decimal(n / 10) + [DigitChar(n % 10)]
  }

  /** The value a string of digits denotes, most significant digit first. */
  function DecimalValue(s: string): nat
    requires AllDigits(s)
    decreases |s|
  {
    if s == [] then 0 else 10 * DecimalValue(s[..|s| - 1]) + DigitValue(s[|s| - 1])
  }

  lemma {:induction false} DecimalValueRoundTrip(n: nat)
    ensures DecimalValue(Decimal(n)) == n
    decreases n
  {
    if n >= 10 {
      var s := Decimal(n / 10) + [DigitChar(n % 10)];
      assert s[..|s| - 1] == Decimal(n / 10);
      DecimalValueRoundTrip(n / 10);
    }
  }

  /** Reads a non-empty run of digits; anything else is not a number. */
  function ParseDecimal(s: string): (r: Option<nat>)
    ensures r.Some? <==> |s| > 0 && AllDigits(s)
  {
    if |s| > 0 && AllDigits(s) then Some(DecimalValue(s)) else None
  }

  /** Parsing gives back the number that was rendered. */
  lemma ParseDecimalRoundTrip(n: nat)
    ensures ParseDecimal(Decimal(n)) == Some(n)
  {
    DecimalValueRoundTrip(n);
  }

  /** Distinct numbers render as distinct text. */
  lemma DecimalInjective(a: nat, b: nat)
    requires Decimal(a) == Decimal(b)
    ensures a == b
  {
    DecimalValueRoundTrip(a);
    DecimalValueRoundTrip(b);
  }

  /** Python's `str` of an `int`, negatives included. */
  function IntDecimal(i: int): (s: string)
    ensures |s| >= 1
    ensures s[0] == '-' <==> i < 0
    ensures i >= 0 ==> ParseDecimal(s) == Some(i)
    ensures i < 0 ==> ParseDecimal(s[1..]) == Some(-i)
    ensures var digits := if i < 0 then s[1..] else s;
      |digits| >= 1 && (digits[0] == '0' ==> digits == "0")
  {
    ParseDecimalRoundTrip(if i < 0 then -i else i);
    if i < 0 then "-" + Decimal(-i) else Decimal(i)
  }

  /** Length of the longest prefix of `s` made of digits. */
  function DigitSpan(s: string): (k: nat)
    ensures k <= |s| && AllDigits(s[..k])
    ensures k < |s| ==> !IsDigit(s[k])
    decreases |s|
  {
    if s == [] || !IsDigit(s[0]) then 0 else 1 + DigitSpan(s[1..])
  }

  /** Digits followed by a non-digit: the span stops exactly there. */
  lemma {:induction false} DigitSpanStops(d: string, rest: string)
    requires AllDigits(d)
    requires rest == [] || !IsDigit(rest[0])
    ensures DigitSpan(d + rest) == |d|
    decreases |d|
  {
    if d != [] {
      assert (d + rest)[1..] == d[1..] + rest;
      DigitSpanStops(d[1..], rest);
    }
  }
}
