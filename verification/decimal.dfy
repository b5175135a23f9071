/**
 * Decimal rendering of non-negative integers, as JavaScript produces it when a
 * number below 10^21 is interpolated into a template string (`${n}`), and its
 * inverse. From 10^21 on JavaScript switches to exponent notation, which is
 * not modelled.
 */
module Decimal {

  predicate IsDigit(c: char) {
    '0' <= c <= '9'
  }

  predicate AllDigits(s: string) {
    forall i :: 0 <= i < |s| ==> IsDigit(s[i])
  }

  function DigitChar(d: nat): (c: char)
    requires d < 10
    ensures IsDigit(c)
  {
    ('0' as int + d) as char
  }

  function DigitValue(c: char): (d: nat)
    requires IsDigit(c)
    ensures d < 10
  {
    c as int - '0' as int
  }

  /** The decimal text of `n`: at least one digit, no leading zero. */
  function FromNat(n: nat): (s: string)
    ensures |s| >= 1
    ensures AllDigits(s)
    ensures n > 0 ==> s[0] != '0'
    ensures n < 10 <==> |s| == 1
  {
    if n < 10 then [DigitChar(n)] else FromNat(n / 10) + [DigitChar(n % 10)]
  }

  /** The number a string of digits denotes. */
  function ToNat(s: string): nat
    requires AllDigits(s)
  {
    if s == [] then 0 else ToNat(s[..|s| - 1]) * 10 + DigitValue(s[|s| - 1])
  }

  /** Reading back the rendered text gives the number. */
  lemma {:induction false} RoundTrip(n: nat)
    ensures ToNat(FromNat(n)) == n
  {
    if n >= 10 {
      var s := FromNat(n);
      assert s[..|s| - 1] == FromNat(n / 10);
      RoundTrip(n / 10);
    }
  }

  /** Distinct numbers render to distinct texts. */
  lemma FromNatInjective(m: nat, n: nat)
    requires FromNat(m) == FromNat(n)
    ensures m == n
  {
    RoundTrip(m);
    RoundTrip(n);
  }
}
