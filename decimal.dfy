/**
 * Swift's decimal integer text: `Int(_ text: String)` for parsing and string
 * interpolation `"\(n)"` for printing. Integers are unbounded here.
 */
module Decimal {
  import opened Basics

  predicate IsDigit(c: char) {
    '0' <= c <= '9'
  }

  predicate AllDigits(s: string) {
    forall i :: 0 <= i < |s| ==> IsDigit(s[i])
  }

  function DigitValue(c: char): nat
    requires IsDigit(c)
  {
    c as int - '0' as int
  }

  function DigitChar(d: nat): (c: char)
    requires d < 10
    ensures IsDigit(c) && DigitValue(c) == d
  {
    ('0' as int + d) as char
  }

  /** The value of a run of decimal digits, most significant first. */
  function DigitsValue(s: string): nat
    requires AllDigits(s)
    decreases |s|
  {
    if s == [] then 0 else DigitsValue(s[..|s| - 1]) * 10 + DigitValue(s[|s| - 1])
  }

  /** What `Int(_:)` accepts: an optional '+' or '-' followed by one or more digits. */
  predicate IsIntegerLiteral(s: string) {
    || (|s| >= 1 && AllDigits(s))
    || (|s| >= 2 && (s[0] == '+' || s[0] == '-') && AllDigits(s[1..]))
  }

  /** `Int(s)`; out-of-range values are not modelled. */
  function ParseInt(s: string): (r: Option<int>)
    ensures r.Some? <==> IsIntegerLiteral(s)
    ensures r.Some? && s[0] == '-' ==> r.value <= 0
    ensures r.Some? && s[0] != '-' ==> r.value >= 0
    ensures r.Some? && s[0] == '-' ==> r.value == 0 - DigitsValue(s[1..])
    ensures r.Some? && s[0] == '+' ==> r.value == DigitsValue(s[1..])
    ensures r.Some? && IsDigit(s[0]) ==> r.value == DigitsValue(s)
  {
    if s == [] then None
    else if s[0] == '+' || s[0] == '-' then
      if |s| >= 2 && AllDigits(s[1..]) then
        var magnitude: int := DigitsValue(s[1..]);
        Some(if s[0] == '-' then -magnitude else magnitude)
      else None
    else if AllDigits(s) then Some(DigitsValue(s))
    else None
  }

  /** Leading zeros do not change the value: `Int("09") == 9`. */
  lemma {:induction false} LeadingZeroIgnored(d: string)
    requires AllDigits(d)
    ensures AllDigits("0" + d) && DigitsValue("0" + d) == DigitsValue(d)
    decreases |d|
  {
    var s := "0" + d;
    assert AllDigits(s) by {
      forall i | 0 <= i < |s| ensures IsDigit(s[i]) {
        if i > 0 { assert s[i] == d[i - 1]; }
      }
    }
    if d != [] {
      var front := d[..|d| - 1];
      assert s[..|s| - 1] == "0" + front;
      assert s[|s| - 1] == d[|d| - 1];
      LeadingZeroIgnored(front);
    }
  }

  /** Decimal digits of a natural number, without leading zeros. */
  function NatToDecimal(n: nat): (r: string)
    ensures r != [] && AllDigits(r)
    ensures DigitsValue(r) == n
    ensures |r| > 1 ==> r[0] != '0'
    decreases n
  {
    if n < 10 then [DigitChar(n)]
    else
      var front := NatToDecimal(n / 10);
      var r := front + [DigitChar(n % 10)];
      assert r[..|r| - 1] == front;
      r
  }

  /** `"\(n)"` for an `Int`: a minus sign for negatives, then the digits. */
  function IntToString(n: int): (r: string)
    ensures r != [] && '.' !in r
    ensures ParseInt(r) == Some(n)
    ensures n >= 0 ==> r == NatToDecimal(n)
    ensures n < 0 ==> r == "-" + NatToDecimal(-n)
  {
    if n < 0 then
      var digits := NatToDecimal(-n);
      assert ("-" + digits)[1..] == digits;
      "-" + digits
    else NatToDecimal(n)
  }
}
