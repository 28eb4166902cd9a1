/** Decimal rendering of non-negative integers, as a template literal `${n}` prints them. */
module Decimal {

  predicate IsDigit(c: char) {
    '0' <= c <= '9'
  }

  predicate AllDigits(s: string) {
    forall i :: 0 <= i < |s| ==> IsDigit(s[i])
  }

  function DigitValue(c: char): (d: nat)
    requires IsDigit(c)
    ensures d < 10
  {
    (c as int) - ('0' as int)
  }

  function DigitChar(d: nat): (c: char)
    requires d < 10
    ensures IsDigit(c) && DigitValue(c) == d
  {
    (('0' as int) + d) as char
  }

  /** The shortest decimal numeral of `n`: digits only, no leading zero. */
  function Show(n: nat): (s: string)
    ensures |s| >= 1
    ensures AllDigits(s)
    ensures s[0] == '0' ==> n == 0 && |s| == 1
    decreases n
  {
    if n < 10 then [DigitChar(n)] else Show(n / 10) + [DigitChar(n % 10)]
  }

  /** The value a string of decimal digits denotes. */
  function Parse(s: string): (n: nat)
    requires AllDigits(s)
    decreases |s|
  {
    if s == [] then 0 else 10 * Parse(s[..|s| - 1]) + DigitValue(s[|s| - 1])
  }

  /** Reading a rendered numeral gives back the number. */
  lemma {:induction false} ParseShow(n: nat)
    ensures Parse(Show(n)) == n
    decreases n
  {
    if n >= 10 {
      var s := Show(n);
      ParseShow(n / 10);
      assert s[..|s| - 1] == Show(n / 10);
    }
  }

  /** Different numbers render differently. */
  lemma ShowInjective(a: nat, b: nat)
    ensures Show(a) == Show(b) ==> a == b
  {
    if Show(a) == Show(b) {
      ParseShow(a);
      ParseShow(b);
    }
  }

  /** A numeral followed by text that starts with a non-digit can be split back into numeral and text. */
  lemma ShowPrefixUnique(a: nat, b: nat, x: string, y: string)
    requires Show(a) + x == Show(b) + y
    requires x != [] && !IsDigit(x[0])
    requires y != [] && !IsDigit(y[0])
    ensures a == b && x == y
  {
    var sa, sb := Show(a), Show(b);
    assert |sa| == |sb| by {
      assert (sa + x)[|sa|] == x[0];
      assert (sb + y)[|sb|] == y[0];
    }
    assert sa == (sa + x)[..|sa|];
    assert sb == (sb + y)[..|sb|];
    ShowInjective(a, b);
    assert x == (sa + x)[|sa|..];
    assert y == (sb + y)[|sb|..];
  }
}
