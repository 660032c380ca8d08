/**
 * The integer/string conversions the store relies on: the store keeps every
 * value as a string, renders integers in decimal when `set` or `incrby`
 * writes them, and the application decodes them with Ruby's `String#to_i`.
 */
module Numeric {
  import opened Wrappers

  predicate IsDigit(c: char) {
    '0' <= c <= '9'
  }

  function DigitValue(c: char): nat
    requires IsDigit(c)
  {
    c as int - '0' as int
  }

  function DigitChar(d: nat): (c: char)
    requires d < 10
    ensures IsDigit(c) && DigitValue(c) == d
  {
    ('0' as int + d) as char
  }

  /** Decimal rendering of a natural number, without leading zeros. */
  function NatToString(n: nat): (s: string)
    ensures |s| > 0
    ensures forall i :: 0 <= i < |s| ==> IsDigit(s[i])
    decreases n
  {
    if n < 10 then [DigitChar(n)] else NatToString(n / 10) + [DigitChar(n % 10)]
  }

  /** Decimal rendering of an integer, as Ruby's `Integer#to_s` writes it. */
  function IntToString(i: int): string {
    if i < 0 then "-" + NatToString(0 - i) else NatToString(i)
  }

  /** The longest prefix of `s` made of decimal digits. */
  function LeadingDigits(s: string): (d: string)
    ensures |d| <= |s| && d == s[..|d|]
    ensures forall i :: 0 <= i < |d| ==> IsDigit(d[i])
  {
    if s != [] && IsDigit(s[0]) then [s[0]] + LeadingDigits(s[1..]) else []
  }

  /** The value of a string of decimal digits, most significant first. */
  function DigitsValue(d: string): nat
    requires forall i :: 0 <= i < |d| ==> IsDigit(d[i])
  {
    if d == [] then 0 else DigitsValue(d[..|d| - 1]) * 10 + DigitValue(d[|d| - 1])
  }

  /**
   * Ruby's `String#to_i`: an optional sign followed by the longest run of
   * digits; anything unparsable reads as 0.
   */
  function ToI(s: string): (r: int)
    ensures s == [] ==> r == 0
    ensures s != [] && !IsDigit(s[0]) && s[0] != '-' && s[0] != '+' ==> r == 0
    ensures s != [] && s[0] == '-' ==> r <= 0
    ensures (s == [] || s[0] != '-') ==> r >= 0
  {
    if s != [] && s[0] == '-' then 0 - DigitsValue(LeadingDigits(s[1..])) as int
    else if s != [] && s[0] == '+' then DigitsValue(LeadingDigits(s[1..]))
    else DigitsValue(LeadingDigits(s))
  }

  /** `nil.to_i` is 0. */
  function OptToI(o: Option<string>): int {
    match o
    case None => 0
    case Some(s) => ToI(s)
  }

  lemma {:induction false} LeadingDigitsOfDigits(d: string)
    requires forall i :: 0 <= i < |d| ==> IsDigit(d[i])
    ensures LeadingDigits(d) == d
  {
    if d != [] {
      LeadingDigitsOfDigits(d[1..]);
    }
  }

  lemma {:induction false} DigitsValueOfNatToString(n: nat)
    ensures DigitsValue(NatToString(n)) == n
    decreases n
  {
    if n >= 10 {
      var s := NatToString(n);
      assert s[..|s| - 1] == NatToString(n / 10);
      DigitsValueOfNatToString(n / 10);
    }
  }

  /** Reading back what `IntToString` wrote gives the integer. */
  lemma ToIOfIntToString(i: int)
    ensures ToI(IntToString(i)) == i
  {
    if i < 0 {
      var s := IntToString(i);
      assert s[1..] == NatToString(-i);
      LeadingDigitsOfDigits(NatToString(-i));
      DigitsValueOfNatToString(-i);
    } else {
      LeadingDigitsOfDigits(NatToString(i));
      DigitsValueOfNatToString(i);
    }
  }
}
