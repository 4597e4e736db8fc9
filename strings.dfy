/**
 * Decimal formatting of natural numbers and the `"{} ({})"` name pattern
 * that both the live poll (duplicate names) and generated player names use.
 */
module Strings {

  /** The decimal digit character for `d`. */
  function DigitChar(d: nat): (c: char)
    requires d < 10
    ensures '0' <= c <= '9'
    ensures c as int - '0' as int == d
  {
    ('0' as int + d) as char
  }

  /** `n` written in decimal without leading zeros, as Rust's `{}` prints a `usize`. */
  function NatToString(n: nat): (s: string)
    ensures |s| >= 1
    ensures n >= 10 <==> |s| >= 2
    ensures forall i :: 0 <= i < |s| ==> '0' <= s[i] <= '9'
    decreases n
  {
    if n < 10 then [DigitChar(n)] else NatToString(n / 10) + [DigitChar(n % 10)]
  }

  /** Distinct numbers print differently. */
  lemma {:induction false} NatToStringInjective(n: nat, m: nat)
    requires NatToString(n) == NatToString(m)
    ensures n == m
    decreases n
  {
    if n >= 10 && m >= 10 {
      var s := NatToString(n);
      assert s[|s| - 1] == DigitChar(n % 10) == DigitChar(m % 10);
      assert NatToString(n / 10) == s[..|s| - 1] == NatToString(m / 10);
      NatToStringInjective(n / 10, m / 10);
    } else if n < 10 && m < 10 {
      assert DigitChar(n) == NatToString(n)[0] == DigitChar(m);
    }
  }

  /** `format!("{} ({})", base, n)`. */
  function WithNumber(base: string, n: nat): (s: string)
    ensures |s| == |base| + |NatToString(n)| + 3
    ensures s[..|base|] == base
    ensures s[|base|] == ' ' && s[|base| + 1] == '('
    ensures s[|base| + 2..|s| - 1] == NatToString(n)
    ensures s[|s| - 1] == ')'
  {
    base + " (" + NatToString(n) + ")"
  }

  /**
   * The `" (n)"` suffix can be parsed back: for bases without an opening
   * parenthesis, equal names have equal bases and equal numbers.
   */
  lemma WithNumberInjective(a: string, n: nat, b: string, m: nat)
    requires '(' !in a && '(' !in b
    requires WithNumber(a, n) == WithNumber(b, m)
    ensures a == b && n == m
  {
    var s := WithNumber(a, n);
    assert a == s[..|a|] == b;
    NatToStringInjective(n, m);
  }

  /** With the base fixed, the number in `"base (n)"` is determined by the name. */
  lemma WithNumberSameBase(base: string, n: nat, m: nat)
    requires WithNumber(base, n) == WithNumber(base, m)
    ensures n == m
  {
    var s := WithNumber(base, n);
    assert NatToString(n) == s[|base| + 2..|s| - 1] == NatToString(m);
    NatToStringInjective(n, m);
  }
}
