/** Decimal notation of integers, as the standard formatters print them. */
module Decimal {

  function DigitChar(d: nat): (c: char)
    requires d < 10
    ensures '0' <= c <= '9'
  {
    '0' + d as char
  }

  /** The digits of a natural number, most significant first. */
  function Digits(n: nat): (s: string)
    ensures |s| > 0
    ensures forall i :: 0 <= i < |s| ==> '0' <= s[i] <= '9'
  {
    if n < 10 then [DigitChar(n)] else Digits(n / 10) + [DigitChar(n % 10)]
  }

  function Text(i: int): string {
    if i < 0 then "-" + Digits(-i) else Digits(i)
  }

  /** Reading the digits back. */
  function Value(s: string): (n: nat)
    requires forall i :: 0 <= i < |s| ==> '0' <= s[i] <= '9'
  {
    if s == [] then 0 else 10 * Value(s[..|s| - 1]) + (s[|s| - 1] - '0') as nat
  }

  lemma {:induction false} ValueOfDigits(n: nat)
    ensures Value(Digits(n)) == n
  {
    if n >= 10 {
      ValueOfDigits(n / 10);
      assert Digits(n)[..|Digits(n)| - 1] == Digits(n / 10);
    }
  }

  /** Different integers print differently. */
  lemma TextInjective(i: int, j: int)
    requires Text(i) == Text(j)
    ensures i == j
  {
    assert i < 0 ==> Text(i)[0] == '-' && Text(i)[1..] == Digits(-i);
    assert j < 0 ==> Text(j)[0] == '-' && Text(j)[1..] == Digits(-j);
    ValueOfDigits(if i < 0 then -i else i);
    ValueOfDigits(if j < 0 then -j else j);
  }
}
