/**
 * Swift's string interpolation of an `Int` ("\(code)"): optional minus sign,
 * then the decimal digits without leading zeros. A reader of the digits is
 * given too, so that the text can be shown to determine the number.
 */
module Decimal {

  predicate IsDigit(c: char) {
    '0' <= c <= '9'
  }

  predicate AllDigits(s: string) {
    forall i :: 0 <= i < |s| ==> IsDigit(s[i])
  }

  function DigitChar(d: nat): (c: char)
    requires d < 10
    ensures IsDigit(c) && c as int - '0' as int == d
  {
    ('0' as int + d) as char
  }

  /** The decimal digits of `n`, most significant first. */
  function NatToString(n: nat): (s: string)
    ensures |s| >= 1 && AllDigits(s)
    ensures |s| > 1 ==> s[0] != '0'
    decreases n
  {
    if n < 10 then [DigitChar(n)] else NatToString(n / 10) + [DigitChar(n % 10)]
  }

  /** How Swift prints an `Int`: a minus sign for negative numbers, then the digits. */
  function IntToString(n: int): (s: string)
    ensures |s| >= 1
    ensures n < 0 <==> s[0] == '-'
  {
    if n < 0 then "-" + NatToString(-n) else NatToString(n)
  }

  /** The number a string of decimal digits denotes. */
  function DigitsValue(s: string): nat
    requires AllDigits(s)
    decreases |s|
  {
    if s == [] then 0 else DigitsValue(s[..|s| - 1]) * 10 + (s[|s| - 1] as int - '0' as int)
  }

  /** Reading the printed digits gives the number back. */
  lemma {:induction false} DigitsValueOfNatToString(n: nat)
    ensures DigitsValue(NatToString(n)) == n
  {
    if n >= 10 {
      var s := NatToString(n / 10);
      var t := s + [DigitChar(n % 10)];
      assert t[..|t| - 1] == s;
      DigitsValueOfNatToString(n / 10);
    }
  }

  /** The printed text denotes the number: after the sign come the digits of `|n|`, without leading zeros. */
  lemma IntToStringDenotes(n: int)
    ensures var digits := if n < 0 then IntToString(n)[1..] else IntToString(n);
            AllDigits(digits) && DigitsValue(digits) == (if n < 0 then -n else n) &&
            (|digits| > 1 ==> digits[0] != '0')
  {
    if n < 0 {
      var s := NatToString(-n);
      assert IntToString(n) == "-" + s;
      assert ("-" + s)[1..] == s;
      DigitsValueOfNatToString(-n);
    } else {
      DigitsValueOfNatToString(n);
    }
  }

  /** Two integers that print the same are the same integer. */
  lemma IntToStringInjective(a: int, b: int)
    requires IntToString(a) == IntToString(b)
    ensures a == b
  {
    if a < 0 && b < 0 {
      var sa, sb := NatToString(-a), NatToString(-b);
      assert sa == ("-" + sa)[1..] == ("-" + sb)[1..] == sb;
      DigitsValueOfNatToString(-a);
      DigitsValueOfNatToString(-b);
    } else if a >= 0 && b >= 0 {
      DigitsValueOfNatToString(a);
      DigitsValueOfNatToString(b);
    }
  }
}
