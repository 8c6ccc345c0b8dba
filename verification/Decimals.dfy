/** Decimal numerals: printing a natural number and reading it back. */
module Decimals {

  predicate IsDigit(c: char) {
    '0' <= c <= '9'
  }

  predicate AllDigits(s: string) {
    s != [] && forall i :: 0 <= i < |s| ==> IsDigit(s[i])
  }

  function DigitChar(d: nat): char
    requires d < 10
  {
    '0' + d as char
  }

  function NatString(n: nat): string {
    if n < 10 then [DigitChar(n)] else NatString(n / 10) + [DigitChar(n % 10)]
  }

  function IntString(n: int): string {
    if n < 0 then ['-'] + NatString(-n) else NatString(n)
  }

  /** The number the first n digits stand for. */
  function DigitsTo(s: string, n: nat): nat
    requires n <= |s| && forall i :: 0 <= i < |s| ==> IsDigit(s[i])
  {
    if n == 0 then 0 else 10 * DigitsTo(s, n - 1) + DigitValue(s[n - 1])
  }

  function DigitValue(c: char): nat
    requires IsDigit(c)
  {
    c as int - '0' as int
  }

  function DigitsValue(s: string): nat
    requires AllDigits(s)
  {
    DigitsTo(s, |s|)
  }

  lemma {:induction false} SamePrefix(s: string, t: string, n: nat)
    requires n <= |s| && n <= |t| && s[..n] == t[..n] && AllDigits(s) && AllDigits(t)
    ensures DigitsTo(s, n) == DigitsTo(t, n)
  {
    if n > 0 {
      assert s[n - 1] == s[..n][n - 1] == t[..n][n - 1] == t[n - 1];
      assert s[..n - 1] == s[..n][..n - 1] == t[..n][..n - 1] == t[..n - 1];
      SamePrefix(s, t, n - 1);
    }
  }

  /** Reading what was printed gives the number back. */
  lemma {:induction false} NatStringRoundTrip(n: nat)
    ensures AllDigits(NatString(n)) && DigitsValue(NatString(n)) == n
  {
    if n >= 10 {
      NatStringRoundTrip(n / 10);
      var s, rest := NatString(n), NatString(n / 10);
      SamePrefix(s, rest, |rest|);
      assert DigitsTo(s, |s|) == 10 * DigitsTo(s, |rest|) + DigitValue(s[|rest|]);
    } else {
      assert DigitsTo(NatString(n), 0) == 0;
    }
  }

  function Power10(k: nat): nat {
    if k == 0 then 1 else 10 * Power10(k - 1)
  }

  /** A number prints in at most k digits exactly when it is below ten to the k. */
  lemma {:induction false} NatStringLength(n: nat, k: nat)
    requires k > 0
    ensures |NatString(n)| <= k <==> n < Power10(k)
    decreases n
  {
    if n < 10 {
      AtLeastTen(k);
    } else if k > 1 {
      NatStringLength(n / 10, k - 1);
    } else {
      assert Power10(1) == 10 * Power10(0);
      assert |NatString(n / 10)| > 0;
    }
  }

  lemma {:induction false} AtLeastTen(k: nat)
    requires k > 0
    ensures Power10(k) >= 10
  {
    if k > 1 { AtLeastTen(k - 1); } else { assert Power10(0) == 1; }
  }

  /** k digits are a number below ten to the k, and without a leading zero at least ten to the k - 1. */
  lemma {:induction false} DigitsBounds(s: string, k: nat)
    requires AllDigits(s) && 0 < k <= |s|
    ensures DigitsTo(s, k) < Power10(k)
    ensures s[0] != '0' ==> DigitsTo(s, k) >= Power10(k - 1)
  {
    if k == 1 {
      assert DigitsTo(s, 0) == 0 && Power10(0) == 1 && Power10(1) == 10;
    } else {
      DigitsBounds(s, k - 1);
    }
  }
}
