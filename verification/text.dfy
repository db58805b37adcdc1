/** Decimal rendering of integers, as java.lang.Integer.toString produces it. */
module Text {

  /** The character of a decimal digit. */
  function DigitChar(d: nat): (c: char)
    requires d < 10
    ensures '0' <= c <= '9'
  {
    ('0' as int + d) as char
  }

  /** Decimal text of a non-negative number, most significant digit first, no leading zero. */
  function NatToString(n: nat): (s: string)
    ensures |s| >= 1
    ensures |s| == 1 <==> n < 10
    ensures forall k | 0 <= k < |s| :: '0' <= s[k] <= '9'
    decreases n
  {
    if n < 10 then [DigitChar(n)] else NatToString(n / 10) + [DigitChar(n % 10)]
  }

  /** Integer.toString: a leading '-' for negative numbers. */
  function IntToString(n: int): (s: string)
    ensures |s| >= 1
    ensures forall k | 0 <= k < |s| :: s[k] == '-' || '0' <= s[k] <= '9'
    ensures s[0] == '-' <==> n < 0
  {
    if n < 0 then "-" + NatToString(-n) else NatToString(n)
  }

  lemma {:induction false} NatToStringInjective(a: nat, b: nat)
    requires NatToString(a) == NatToString(b)
    ensures a == b
    decreases a
  {
    var s := NatToString(a);
    if a >= 10 && b >= 10 {
      assert NatToString(a / 10) == s[..|s| - 1] == NatToString(b / 10);
      NatToStringInjective(a / 10, b / 10);
      assert DigitChar(a % 10) == s[|s| - 1] == DigitChar(b % 10);
    } else if a < 10 && b < 10 {
      assert DigitChar(a) == s[0] == DigitChar(b);
    }
  }

  /** Distinct integers have distinct decimal texts. */
  lemma IntToStringInjective(a: int, b: int)
    ensures IntToString(a) == IntToString(b) ==> a == b
  {
    if IntToString(a) == IntToString(b) {
      var s := IntToString(a);
      if a < 0 && b < 0 {
        assert NatToString(-a) == s[1..] == NatToString(-b);
        NatToStringInjective(-a, -b);
      } else if a >= 0 && b >= 0 {
        NatToStringInjective(a, b);
      }
    }
  }

  /** The part of `t` after its last `sep` (all of `t` when it holds none). */
  function AfterLast(t: string, sep: char): (s: string)
    ensures sep !in s
    decreases |t|
  {
    if |t| == 0 || t[|t| - 1] == sep then [] else AfterLast(t[..|t| - 1], sep) + [t[|t| - 1]]
  }

  lemma {:induction false} AfterLastOfJoin(r: string, s: string, sep: char)
    requires sep !in s
    ensures AfterLast(r + [sep] + s, sep) == s
    decreases |s|
  {
    var t := r + [sep] + s;
    if |s| > 0 {
      assert t[..|t| - 1] == r + [sep] + s[..|s| - 1];
      AfterLastOfJoin(r, s[..|s| - 1], sep);
      assert s == s[..|s| - 1] + [s[|s| - 1]];
    }
  }

  /** Splitting at a separator that the right-hand parts never contain is unambiguous. */
  lemma SplitAtLastSeparator(r1: string, s1: string, r2: string, s2: string, sep: char)
    requires sep !in s1 && sep !in s2
    requires r1 + [sep] + s1 == r2 + [sep] + s2
    ensures r1 == r2 && s1 == s2
  {
    var t := r1 + [sep] + s1;
    AfterLastOfJoin(r1, s1, sep);
    AfterLastOfJoin(r2, s2, sep);
    assert r1 == t[..|r1|] == r2;
  }
}
