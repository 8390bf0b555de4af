/** Decimal digit strings: the character class `\d` of a JavaScript regular
    expression, and the decimal rendering `Number.prototype.toString` gives a
    non-negative integer. */
module Decimal {

  /** The characters `\d` matches (without the `u` flag): ASCII 0-9. */
  predicate IsDigit(c: char) {
    '0' <= c <= '9'
  }

  predicate AllDigits(s: string) {
    forall i :: 0 <= i < |s| ==> IsDigit(s[i])
  }

  function DigitChar(d: nat): (c: char)
    requires d < 10
    ensures IsDigit(c) && DigitValue(c) == d
  {
    ('0' as int + d) as char
  }

  function DigitValue(c: char): (d: nat)
    requires IsDigit(c)
    ensures d < 10
  {
    c as int - '0' as int
  }

  function Pow10(k: nat): (p: nat)
    ensures p >= 1
  {
    if k == 0 then 1 else 10 * Pow10(k - 1)
  }

  /** The decimal string of n, most significant digit first, with no leading zero. */
  function ToDecimal(n: nat): (s: string)
    ensures |s| >= 1 && AllDigits(s)
  {
    if n < 10 then [DigitChar(n)] else ToDecimal(n / 10) + [DigitChar(n % 10)]
  }

  /** The number a digit string denotes. */
  function ValueOf(s: string): (n: nat)
    requires AllDigits(s)
  {
    if s == [] then 0 else 10 * ValueOf(s[..|s| - 1]) + DigitValue(s[|s| - 1])
  }

  /** Reading the rendering back gives the number: distinct numbers render as distinct strings. */
  lemma {:induction false} ValueOfToDecimal(n: nat)
    ensures ValueOf(ToDecimal(n)) == n
  {
    var s := ToDecimal(n);
    if n >= 10 {
      assert s[..|s| - 1] == ToDecimal(n / 10);
      ValueOfToDecimal(n / 10);
    }
  }

  /** A number with k + 1 significant digits renders as exactly k + 1 characters. */
  lemma {:induction false} ToDecimalLength(n: nat, k: nat)
    requires Pow10(k) <= n < Pow10(k + 1)
    ensures |ToDecimal(n)| == k + 1
  {
    if k > 0 {
      ToDecimalLength(n / 10, k - 1);
    }
  }

  /** A positive number renders without a leading zero. */
  lemma {:induction false} ToDecimalLeadingDigit(n: nat)
    requires n >= 1
    ensures ToDecimal(n)[0] != '0'
  {
    if n >= 10 {
      ToDecimalLeadingDigit(n / 10);
    }
  }
}
