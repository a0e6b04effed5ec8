/**
 * Text helpers shared by the model: Python's str() of an integer, the
 * digit parser behind int(), and str.strip().
 */
module Strings {
  predicate IsDigit(c: char) { '0' <= c <= '9' }

  function DigitChar(d: nat): (c: char)
    requires d < 10
    ensures IsDigit(c) && c as int - '0' as int == d
  {
    ('0' as int + d) as char
  }

  /** Decimal digits of n, most significant first, as str(n) writes them. */
  function NatToString(n: nat): (s: string)
    ensures |s| >= 1
    ensures forall i :: 0 <= i < |s| ==> IsDigit(s[i])
    decreases n
  {
    if n < 10 then [DigitChar(n)] else NatToString(n / 10) + [DigitChar(n % 10)]
  }

  /** str(i) for a Python int: a minus sign before the digits of |i|. */
  function IntToString(i: int): (s: string)
    ensures |s| >= 1
    ensures '_' !in s
    ensures (s[0] == '-') == (i < 0)
  {
    if i < 0 then "-" + NatToString(-i) else NatToString(i)
  }

  predicate AllDigits(s: string) { forall i :: 0 <= i < |s| ==> IsDigit(s[i]) }

  /** The value of a string of decimal digits. */
  function DigitsValue(s: string): nat
    requires AllDigits(s)
  {
    if |s| == 0 then 0 else DigitsValue(s[..|s| - 1]) * 10 + (s[|s| - 1] as int - '0' as int)
  }

  lemma {:induction false} DigitsValueOfNatToString(n: nat)
    ensures DigitsValue(NatToString(n)) == n
    decreases n
  {
    if n >= 10 {
      var s := NatToString(n);
      assert s[..|s| - 1] == NatToString(n / 10);
      DigitsValueOfNatToString(n / 10);
    }
  }

  lemma NatToStringInjective(m: nat, n: nat)
    ensures NatToString(m) == NatToString(n) ==> m == n
  {
    DigitsValueOfNatToString(m);
    DigitsValueOfNatToString(n);
  }

  lemma IntToStringInjective(i: int, j: int)
    ensures IntToString(i) == IntToString(j) ==> i == j
  {
    if IntToString(i) == IntToString(j) {
      NatToStringInjective(if i < 0 then -i else i, if j < 0 then -j else j);
      if i < 0 && j < 0 {
        assert IntToString(i)[1..] == NatToString(-i);
        assert IntToString(j)[1..] == NatToString(-j);
      }
    }
  }

  /** The text after the last underscore of s (all of s when it has none). */
  function AfterLastUnderscore(s: string): string
  {
    if |s| == 0 || s[|s| - 1] == '_' then "" else AfterLastUnderscore(s[..|s| - 1]) + [s[|s| - 1]]
  }

  /** The text before the last underscore of s ("" when it has none). */
  function BeforeLastUnderscore(s: string): string
  {
    if |s| == 0 then "" else if s[|s| - 1] == '_' then s[..|s| - 1] else BeforeLastUnderscore(s[..|s| - 1])
  }

  lemma {:induction false} SplitJoinUnderscore(a: string, x: string)
    requires '_' !in x
    ensures AfterLastUnderscore(a + "_" + x) == x
    ensures BeforeLastUnderscore(a + "_" + x) == a
    decreases |x|
  {
    var s := a + "_" + x;
    if |x| == 0 {
      assert s[..|s| - 1] == a;
    } else {
      var x' := x[..|x| - 1];
      assert s[..|s| - 1] == a + "_" + x';
      assert x == x' + [x[|x| - 1]];
      SplitJoinUnderscore(a, x');
    }
  }

  /**
   * `a + "_" + x` determines both a and x when x holds no underscore: the
   * last underscore is the separator. This is why f"{name}_{size}" and
   * f"{base}_{counter}" never collide for different arguments.
   */
  lemma JoinUnderscoreInjective(a: string, x: string, b: string, y: string)
    requires '_' !in x && '_' !in y
    ensures a + "_" + x == b + "_" + y ==> a == b && x == y
  {
    SplitJoinUnderscore(a, x);
    SplitJoinUnderscore(b, y);
  }

  /** The characters str.isspace() accepts in the ASCII and Latin-1 range. */
  predicate IsSpace(c: char)
  {
    c == ' ' || c == '\t' || c == '\n' || c == '\r' || c == '\U{B}' || c == '\U{C}'
    || ('\U{1C}' <= c <= '\U{1F}') || c == '\U{85}' || c == '\U{A0}'
  }

  function TrimLeft(s: string): (r: string)
    ensures |r| <= |s| && r == s[|s| - |r|..]
    ensures |r| > 0 ==> !IsSpace(r[0])
    ensures forall i :: 0 <= i < |s| - |r| ==> IsSpace(s[i])
  {
    if |s| > 0 && IsSpace(s[0]) then TrimLeft(s[1..]) else s
  }

  function TrimRight(s: string): (r: string)
    ensures |r| <= |s| && r == s[..|r|]
    ensures |r| > 0 ==> !IsSpace(r[|r| - 1])
    ensures forall i :: |r| <= i < |s| ==> IsSpace(s[i])
  {
    if |s| > 0 && IsSpace(s[|s| - 1]) then TrimRight(s[..|s| - 1]) else s
  }

  /** Python's str.strip() with no argument. */
  function Strip(s: string): (r: string)
  {
    TrimRight(TrimLeft(s))
  }

  /** strip() yields "" exactly for strings made only of whitespace. */
  lemma StripEmptyIffBlank(s: string)
    ensures Strip(s) == "" <==> forall i :: 0 <= i < |s| ==> IsSpace(s[i])
  {
    var l := TrimLeft(s);
    if |l| > 0 {
      assert l[0] == s[|s| - |l|];
    }
  }

  /** strip() keeps a contiguous slice of the input with no whitespace at either end. */
  lemma StripIsTrimmedSlice(s: string)
    ensures exists i, j :: 0 <= i <= j <= |s| && Strip(s) == s[i..j]
    ensures |Strip(s)| > 0 ==> !IsSpace(Strip(s)[0]) && !IsSpace(Strip(s)[|Strip(s)| - 1])
  {
    var l := TrimLeft(s);
    var r := TrimRight(l);
    assert r == s[|s| - |l|..][..|r|] == s[|s| - |l|..|s| - |l| + |r|];
  }
}
