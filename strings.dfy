/** Decimal rendering of natural numbers, as Go's `fmt.Sprintf("%d", n)`
    prints them, used for the generated identifiers "ap-N" and "action-N-1". */
module Strings {

  function Digit(d: nat): (c: char)
    requires d < 10
    ensures '0' <= c <= '9'
    ensures c as int - '0' as int == d
  {
    ['0', '1', '2', '3', '4', '5', '6', '7', '8', '9'][d]
  }

  /** The decimal digits of `n`, most significant first, without leading zeros. */
  function NatToString(n: nat): (s: string)
    ensures |s| >= 1
    ensures forall i :: 0 <= i < |s| ==> '0' <= s[i] <= '9'
    ensures |s| > 1 ==> s[0] != '0'
    decreases n
  {
    if n < 10 then [Digit(n)] else NatToString(n / 10) + [Digit(n % 10)]
  }

  /** Different numbers print differently, so generated identifiers such as
      "ap-1", "ap-2", ... never collide. */
  lemma {:induction false} NatToStringInjective(m: nat, n: nat)
    requires NatToString(m) == NatToString(n)
    ensures m == n
    decreases m
  {
    var s := NatToString(m);
    if m < 10 && n < 10 {
    } else if m < 10 || n < 10 {
      // one renders as a single digit, the other as at least two
    } else {
      var sm, sn := NatToString(m / 10), NatToString(n / 10);
      assert s == sm + [Digit(m % 10)];
      assert NatToString(n) == sn + [Digit(n % 10)];
      assert sm == s[..|s| - 1];
      assert sn == s[..|s| - 1];
      NatToStringInjective(m / 10, n / 10);
      assert Digit(m % 10) == s[|s| - 1] == Digit(n % 10);
    }
  }

  /** Prefixing both sides with the same text keeps different numbers apart. */
  lemma PrefixedNumbersDiffer(prefix: string, m: nat, n: nat)
    requires m != n
    ensures prefix + NatToString(m) != prefix + NatToString(n)
  {
    if prefix + NatToString(m) == prefix + NatToString(n) {
      assert NatToString(m) == (prefix + NatToString(m))[|prefix|..];
      assert NatToString(n) == (prefix + NatToString(n))[|prefix|..];
      NatToStringInjective(m, n);
    }
  }

  /** The same with a common suffix, as in "action-N-1". */
  lemma PrefixedSuffixedNumbersDiffer(prefix: string, suffix: string, m: nat, n: nat)
    requires m != n
    ensures prefix + NatToString(m) + suffix != prefix + NatToString(n) + suffix
  {
    var a, b := prefix + NatToString(m), prefix + NatToString(n);
    if a + suffix == b + suffix {
      assert |a| == |b|;
      assert a == (a + suffix)[..|a|];
      assert b == (b + suffix)[..|b|];
      PrefixedNumbersDiffer(prefix, m, n);
    }
  }
}
