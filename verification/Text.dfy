/** Decimal rendering of identifiers, as Python's f-strings do it, and why keys built from it never collide. */
module Text {

  function DigitChar(d: nat): char
    requires d < 10
  {
    ((d + '0' as int) as char)
  }

  function NatText(n: nat): string {
    if n < 10 then [DigitChar(n)] else NatText(n / 10) + [DigitChar(n % 10)]
  }

  predicate IsDigit(c: char) { '0' <= c <= '9' }

  lemma {:induction false} NatTextIsDigits(n: nat)
    ensures |NatText(n)| > 0
    ensures forall k | 0 <= k < |NatText(n)| :: IsDigit(NatText(n)[k])
  {
    if n >= 10 {
      NatTextIsDigits(n / 10);
    }
  }

  lemma {:induction false} NatTextInjective(a: nat, b: nat)
    requires NatText(a) == NatText(b)
    ensures a == b
  {
    NatTextIsDigits(a / 10);
    NatTextIsDigits(b / 10);
    var s, t := NatText(a), NatText(b);
    assert s[|s| - 1] == t[|t| - 1];
    if a >= 10 {
      assert |s| >= 2;
      assert b >= 10;
      assert s[..|s| - 1] == NatText(a / 10);
      assert t[..|t| - 1] == NatText(b / 10);
      NatTextInjective(a / 10, b / 10);
    }
  }

  /** A decimal number followed by ':' can be read back: the number ends at the first ':'. */
  lemma SplitAtColon(a: nat, x: string, b: nat, y: string)
    requires NatText(a) + ":" + x == NatText(b) + ":" + y
    ensures a == b && x == y
  {
    var p, q := NatText(a), NatText(b);
    var s := p + ":" + x;
    NatTextIsDigits(a);
    NatTextIsDigits(b);
    assert s[|p|] == ':';
    assert s == q + ":" + y;
    assert s[|q|] == ':';
    assert |p| < |q| ==> IsDigit(s[|p|]);
    assert |q| < |p| ==> IsDigit(s[|q|]);
    assert p == s[..|p|] && q == s[..|q|];
    assert x == s[|p| + 1..] && y == s[|q| + 1..];
    NatTextInjective(a, b);
  }
}
