// String helpers the source gets from JavaScript: `startsWith` and the
// decimal rendering of a number inside a template literal.

module Strings {

  predicate StartsWith(s: string, prefix: string)
  {
    |prefix| <= |s| && s[..|prefix|] == prefix
  }

  function DigitChar(d: nat): (c: char)
    requires d < 10
    ensures '0' <= c <= '9'
    ensures c as int - '0' as int == d
  {
    ('0' as int + d) as char
  }

  /** The decimal digits of n, most significant first, without leading zeros. */
  function NatToDecimal(n: nat): (s: string)
    ensures |s| > 0
    ensures forall i | 0 <= i < |s| :: '0' <= s[i] <= '9'
    ensures n >= 10 ==> s[0] != '0'
  {
    if n < 10 then [DigitChar(n)] else NatToDecimal(n / 10) + [DigitChar(n % 10)]
  }

  /** Different numbers have different decimal renderings. */
  lemma {:induction false} NatToDecimalInjective(a: nat, b: nat)
    requires NatToDecimal(a) == NatToDecimal(b)
    ensures a == b
  {
    var s := NatToDecimal(a);
    if a >= 10 && b >= 10 {
      assert s[..|s| - 1] == NatToDecimal(a / 10) && s[..|s| - 1] == NatToDecimal(b / 10);
      NatToDecimalInjective(a / 10, b / 10);
      assert DigitChar(a % 10) == s[|s| - 1] == DigitChar(b % 10);
    }
  }

  /** In `p + "-" + d` with d all digits, d is everything after the last
      minus sign, so it can be read back. */
  lemma DigitSuffixUnique(p1: string, d1: string, p2: string, d2: string)
    requires forall i | 0 <= i < |d1| :: '0' <= d1[i] <= '9'
    requires forall i | 0 <= i < |d2| :: '0' <= d2[i] <= '9'
    requires p1 + "-" + d1 == p2 + "-" + d2
    ensures d1 == d2
  {
    var s := p1 + "-" + d1;
    MinusThenDigits(p1, d1);
    MinusThenDigits(p2, d2);
    if |d1| < |d2| {
      assert false;
    } else if |d2| < |d1| {
      assert false;
    }
    assert d1 == s[|s| - |d1|..];
  }

  /** In `p + "-" + d` the minus sign sits at |p| and only digits follow it. */
  lemma MinusThenDigits(p: string, d: string)
    requires forall i | 0 <= i < |d| :: '0' <= d[i] <= '9'
    ensures (p + "-" + d)[|p|] == '-'
    ensures forall k | |p| < k < |p| + 1 + |d| :: '0' <= (p + "-" + d)[k] <= '9'
  {
    forall k | |p| < k < |p| + 1 + |d| ensures '0' <= (p + "-" + d)[k] <= '9' {
      assert (p + "-" + d)[k] == d[k - |p| - 1];
    }
  }

  /** How `${n}` renders an integer: a minus sign before a negative one. */
  function IntToDecimal(n: int): (s: string)
    ensures |s| > 0
    ensures (s[0] == '-') <==> n < 0
  {
    if n < 0 then "-" + NatToDecimal(-n) else NatToDecimal(n)
  }
}
