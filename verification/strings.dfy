/**
 The two string utilities the modelled code relies on: Go's `strings.TrimSpace`
 and the decimal rendering of integers by `fmt`'s `%d` verb (and JavaScript's
 template literals for non-negative integers).
 */
module Strings {

  /**
   The white-space characters as Go's `unicode.IsSpace` defines them: space and
   tab through carriage return (U+0009 to U+000D) in ASCII, NEL and NO-BREAK
   SPACE in Latin-1, and the Unicode `White_Space` code points beyond Latin-1.
   */
  predicate IsSpace(c: char)
  {
    if c <= '\U{A0}' then
      c == ' ' || ('\t' <= c <= '\r') || c == '\U{85}' || c == '\U{A0}'
    else
      c == '\U{1680}' || ('\U{2000}' <= c <= '\U{200A}') || ('\U{2028}' <= c <= '\U{2029}')
      || c == '\U{202F}' || c == '\U{205F}' || c == '\U{3000}'
  }

  predicate AllSpace(s: string)
  {
    forall k :: 0 <= k < |s| ==> IsSpace(s[k])
  }

  /** `s` without its white-space prefix. */
  function TrimLeft(s: string): (r: string)
    ensures |r| <= |s|
    ensures r == "" || !IsSpace(r[0])
    ensures |r| > 0 ==> r[|r| - 1] == s[|s| - 1]
    ensures r == "" <==> AllSpace(s)
  {
    if |s| > 0 && IsSpace(s[0]) then
      assert forall k :: 0 < k < |s| ==> s[k] == s[1..][k - 1];
      TrimLeft(s[1..])
    else s
  }

  /** `s` without its white-space suffix. */
  function TrimRight(s: string): (r: string)
    ensures |r| <= |s|
    ensures r == "" || !IsSpace(r[|r| - 1])
    ensures |r| > 0 ==> r[0] == s[0]
    ensures r == "" <==> AllSpace(s)
  {
    if |s| > 0 && IsSpace(s[|s| - 1]) then
      assert forall k :: 0 <= k < |s| - 1 ==> s[k] == s[..|s| - 1][k];
      TrimRight(s[..|s| - 1])
    else s
  }

  /** A string with no white space at either end. */
  predicate Trimmed(s: string)
  {
    |s| == 0 || (!IsSpace(s[0]) && !IsSpace(s[|s| - 1]))
  }

  /** Go's `strings.TrimSpace`: the leading white space goes, then the trailing. */
  function TrimSpace(s: string): (r: string)
    ensures Trimmed(r)
    ensures |r| <= |s|
    ensures r == "" <==> AllSpace(s)
  {
    TrimRight(TrimLeft(s))
  }

  /** Dropping a white-space prefix from a string that does not start with white space. */
  lemma {:induction false} TrimLeftPadded(pre: string, t: string)
    requires AllSpace(pre) && (t == "" || !IsSpace(t[0]))
    ensures TrimLeft(pre + t) == t
    decreases |pre|
  {
    if |pre| > 0 {
      assert (pre + t)[0] == pre[0];
      assert (pre + t)[1..] == pre[1..] + t;
      TrimLeftPadded(pre[1..], t);
    } else {
      assert pre + t == t;
    }
  }

  /** Dropping a white-space suffix from a string that does not end with white space. */
  lemma {:induction false} TrimRightPadded(t: string, post: string)
    requires AllSpace(post) && (t == "" || !IsSpace(t[|t| - 1]))
    ensures TrimRight(t + post) == t
    decreases |post|
  {
    if |post| > 0 {
      var s := t + post;
      assert s[|s| - 1] == post[|post| - 1];
      assert s[..|s| - 1] == t + post[..|post| - 1];
      TrimRightPadded(t, post[..|post| - 1]);
    } else {
      assert t + post == t;
    }
  }

  /** Surrounding a trimmed string with white space does not change what TrimSpace yields. */
  lemma TrimSpacePadded(pre: string, x: string, post: string)
    requires AllSpace(pre) && AllSpace(post) && Trimmed(x)
    ensures TrimSpace(pre + x + post) == x
  {
    if |x| == 0 {
      assert pre + x + post == pre + post;
      TrimLeftPadded(pre + post, "");
      assert pre + post + "" == pre + post;
    } else {
      assert pre + x + post == pre + (x + post);
      assert (x + post)[0] == x[0];
      TrimLeftPadded(pre, x + post);
      TrimRightPadded(x, post);
    }
  }

  /** TrimSpace is idempotent. */
  lemma TrimSpaceIdempotent(s: string)
    ensures TrimSpace(TrimSpace(s)) == TrimSpace(s)
  {
    var r := TrimSpace(s);
    TrimSpacePadded("", r, "");
    assert "" + r + "" == r;
  }

  function DigitChar(d: nat): (c: char)
    requires d < 10
    ensures '0' <= c <= '9'
  {
    "0123456789"[d]
  }

  function DigitValue(c: char): (d: nat)
    requires '0' <= c <= '9'
    ensures d < 10
    ensures DigitChar(d) == c
  {
    (c as int - '0' as int) as nat
  }

  predicate IsDecimal(s: string)
  {
    |s| > 0 && forall k :: 0 <= k < |s| ==> '0' <= s[k] <= '9'
  }

  /** A decimal numeral as `%d` prints it: digits only, with no leading zero unless it is "0" itself. */
  predicate IsNumeral(s: string)
  {
    IsDecimal(s) && (s[0] == '0' ==> |s| == 1)
  }

  /** The value of a string of decimal digits. */
  function DecimalValue(s: string): nat
    requires forall k :: 0 <= k < |s| ==> '0' <= s[k] <= '9'
  {
    if |s| == 0 then 0 else 10 * DecimalValue(s[..|s| - 1]) + DigitValue(s[|s| - 1])
  }

  /** `%d` of a natural number: its decimal digits, most significant first, with no leading zero. */
  function NatToDecimal(n: nat): (r: string)
    ensures IsNumeral(r)
    ensures r[0] == '0' ==> n == 0
    ensures DecimalValue(r) == n
  {
    if n < 10 then
      var r := [DigitChar(n)];
      assert r[..0] == [];
      assert DigitValue(r[0]) == n by {
        assert DigitChar(DigitValue(r[0])) == DigitChar(n);
        assert "0123456789"[DigitValue(r[0])] == "0123456789"[n];
      }
      r
    else
      var p := NatToDecimal(n / 10);
      var r := p + [DigitChar(n % 10)];
      assert r[..|r| - 1] == p;
      assert DigitValue(r[|r| - 1]) == n % 10 by {
        assert "0123456789"[DigitValue(r[|r| - 1])] == "0123456789"[n % 10];
      }
      r
  }

  /** `%d` of an integer: a minus sign before the digits of a negative value. */
  function IntToDecimal(i: int): (r: string)
    ensures |r| > 0
    ensures i >= 0 ==> r == NatToDecimal(i)
    ensures i < 0 ==> r[0] == '-' && r[1..] == NatToDecimal(-i)
  {
    if i < 0 then "-" + NatToDecimal(-i) else NatToDecimal(i)
  }

  /**
   A decimal numeral followed by text that starts with a non-digit can be
   split off in only one way.
   */
  lemma DecimalSplit(a: string, x: string, b: string, y: string)
    requires IsDecimal(a) && IsDecimal(b)
    requires |x| > 0 && |y| > 0 && !('0' <= x[0] <= '9') && !('0' <= y[0] <= '9')
    requires a + x == b + y
    ensures a == b && x == y
  {
    assert a == (a + x)[..|a|];
    assert b == (b + y)[..|b|];
    assert x == (a + x)[|a|..];
    assert y == (b + y)[|b|..];
  }

  /** Decimal rendering is injective: different numbers never print alike. */
  lemma NatToDecimalInjective(m: nat, n: nat)
    requires NatToDecimal(m) == NatToDecimal(n)
    ensures m == n
  {
  }

  /**
   Every numeral is the `%d` rendering of its own value, so a contract that
   asks for a numeral of a given value fixes the text completely.
   */
  lemma {:induction false} NumeralIsCanonical(s: string)
    requires IsNumeral(s)
    ensures NatToDecimal(DecimalValue(s)) == s
    decreases |s|
  {
    var d := DigitValue(s[|s| - 1]);
    if |s| == 1 {
      assert s[..0] == [];
      assert NatToDecimal(d) == [DigitChar(d)];
    } else {
      var p := s[..|s| - 1];
      assert p[0] == s[0] != '0';
      NumeralIsCanonical(p);
      var v := DecimalValue(s);
      assert v == 10 * DecimalValue(p) + d;
      assert DecimalValue(p) != 0;
      assert v / 10 == DecimalValue(p) && v % 10 == d;
      assert NatToDecimal(v) == NatToDecimal(v / 10) + [DigitChar(v % 10)];
      assert s == p + [s[|s| - 1]];
    }
  }
}
