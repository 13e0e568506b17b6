/** Integers in decimal: what Python's "%d" and str print. */
module Decimals {
  function Digit(d: nat): char
    requires d < 10
  {
    ['0', '1', '2', '3', '4', '5', '6', '7', '8', '9'][d]
  }

  predicate Numeral(c: char) { '0' <= c <= '9' || c == '-' }

  function Digits(n: nat): (s: string)
    ensures s != "" && forall k :: 0 <= k < |s| ==> Numeral(s[k])
  {
    if n < 10 then [Digit(n)] else Digits(n / 10) + [Digit(n % 10)]
  }

  function Decimal(n: int): (s: string)
    ensures s != "" && forall k :: 0 <= k < |s| ==> Numeral(s[k])
  {
    if n < 0 then "-" + Digits(-n) else Digits(n)
  }

  /** What digits stand for, read from the left. */
  function Worth(s: string): int {
    if s == "" then 0 else 10 * Worth(s[..|s| - 1]) + (s[|s| - 1] as int - '0' as int)
  }

  /** The digits of a number stand for it, and none leads that is not needed. */
  lemma {:induction false} DigitsStand(n: nat)
    ensures Worth(Digits(n)) == n && (forall k :: 0 <= k < |Digits(n)| ==> '0' <= Digits(n)[k] <= '9')
    ensures n > 0 ==> Digits(n)[0] != '0'
    ensures n == 0 ==> Digits(n) == "0"
  {
    hide Worth, Digit;
    DigitIs(n % 10);
    if n < 10 {
      WorthOn("", Digit(n));
      assert "" + [Digit(n)] == Digits(n);
    } else {
      DigitsStand(n / 10);
      WorthOn(Digits(n / 10), Digit(n % 10));
    }
  }

  lemma DigitIs(d: nat)
    requires d < 10
    ensures '0' <= Digit(d) <= '9' && Digit(d) as int - '0' as int == d
  {
  }

  lemma WorthOn(s: string, c: char)
    ensures Worth("") == 0
    ensures Worth(s + [c]) == 10 * Worth(s) + (c as int - '0' as int)
  {
    assert (s + [c])[..|s|] == s;
  }

  /** So do those after a negative number's sign. */
  lemma DecimalStands(n: int)
    ensures n >= 0 ==> Worth(Decimal(n)) == n
    ensures n < 0 ==> Decimal(n)[0] == '-' && Worth(Decimal(n)[1..]) == -n
  {
    DigitsStand(if n < 0 then -n else n);
  }
}
