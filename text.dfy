/**
 * The string operations of the .NET base library that the layer code relies on:
 * decimal rendering of integers (what `"..." + someInt` does), ordinal substring search
 * (`String.Contains`) and forward character search (`String.IndexOf(char, int)`), together
 * with the prefix and suffix predicates in which the contracts state URL shapes.
 */
module Text {

  predicate IsDigit(c: char) {
    '0' <= c <= '9'
  }

  /** True when every character of `s` is a decimal digit. */
  predicate AllDigits(s: string) {
    forall k :: 0 <= k < |s| ==> IsDigit(s[k])
  }

  function DigitChar(d: nat): (c: char)
    requires d < 10
    ensures IsDigit(c) && DigitValue(c) == d
  {
    (d + '0' as int) as char
  }

  function DigitValue(c: char): nat
    requires IsDigit(c)
  {
    c as int - '0' as int
  }

  /** The invariant-culture decimal rendering of a natural number: digits only, no leading zero. */
  function NatToString(n: nat): (s: string)
    ensures |s| > 0 && AllDigits(s)
    ensures |s| > 1 ==> s[0] != '0'
    decreases n
  {
    if n < 10 then [DigitChar(n)] else NatToString(n / 10) + [DigitChar(n % 10)]
  }

  /** `Int32.ToString()`: an optional minus sign followed by the digits of the magnitude. */
  function IntToString(i: int): (s: string)
    ensures |s| > 0
    ensures s[0] == '-' <==> i < 0
    ensures forall k :: 0 <= k < |s| ==> IsDigit(s[k]) || s[k] == '-'
    ensures i < 0 ==> AllDigits(s[1..])
    ensures i >= 0 ==> AllDigits(s)
  {
    if i < 0 then
      assert ("-" + NatToString(-i))[1..] == NatToString(-i);
      "-" + NatToString(-i)
    else NatToString(i)
  }

  /** Reads a string of decimal digits back as a number; the inverse of `NatToString`. */
  function ParseDigits(s: string): nat
    requires AllDigits(s)
  {
    if s == [] then 0 else 10 * ParseDigits(s[..|s| - 1]) + DigitValue(s[|s| - 1])
  }

  /** Reads an optionally signed decimal numeral; the inverse of `IntToString`. */
  function ParseInt(s: string): int
    requires |s| > 0
    requires s[0] == '-' ==> AllDigits(s[1..])
    requires s[0] != '-' ==> AllDigits(s)
  {
    if s[0] == '-' then -(ParseDigits(s[1..]) as int) else ParseDigits(s)
  }

  lemma {:induction false} ParseNatToString(n: nat)
    ensures ParseDigits(NatToString(n)) == n
    decreases n
  {
    if n >= 10 {
      var s := NatToString(n);
      ParseNatToString(n / 10);
      assert s[..|s| - 1] == NatToString(n / 10);
    }
  }

  /** Rendering an integer loses nothing: the numeral reads back as the same integer. */
  lemma ParseIntToString(i: int)
    ensures var s := IntToString(i); (s[0] == '-' ==> AllDigits(s[1..])) && ParseInt(s) == i
  {
    if i < 0 {
      ParseNatToString(-i);
      assert IntToString(i)[1..] == NatToString(-i);
    } else {
      ParseNatToString(i);
    }
  }

  /** Distinct integers are rendered as distinct numerals. */
  lemma IntToStringInjective(i: int, j: int)
    requires IntToString(i) == IntToString(j)
    ensures i == j
  {
    ParseIntToString(i);
    ParseIntToString(j);
  }

  /** `p` is a prefix of `s` (used in contracts; the layer code does not call it). */
  predicate StartsWith(s: string, p: string) {
    |p| <= |s| && s[..|p|] == p
  }

  /** `p` is a suffix of `s` (used in contracts; the layer code does not call it). */
  predicate EndsWith(s: string, p: string) {
    |p| <= |s| && s[|s| - |p|..] == p
  }

  /** A concatenation starts with its first part and ends with its last. */
  lemma ConcatEnds(a: string, b: string, c: string)
    ensures StartsWith(a + b + c, a) && EndsWith(a + b + c, c)
  {
    assert (a + b + c)[..|a|] == a;
    assert (a + b + c)[|a + b|..] == c;
  }

  /** A character that is neither a digit nor '-' occurs in no numeral. */
  lemma NumeralLacks(i: int, c: char)
    requires !IsDigit(c) && c != '-'
    ensures c !in IntToString(i)
  {
  }

  /** Dropping a common prefix keeps two strings equal. */
  lemma DropPrefix(p: string, a: string, b: string)
    requires p + a == p + b
    ensures a == b
  {
    assert a == (p + a)[|p|..];
    assert b == (p + b)[|p|..];
  }

  /** The first `m` of `x + [m] + y`, when `x` has none, is the one just after `x`. */
  lemma FirstMark(x: string, m: char, y: string)
    requires m !in x
    ensures IndexOfFrom(x + [m] + y, m, 0) == |x|
  {
    var s := x + [m] + y;
    assert s[|x|] == m;
    forall j | 0 <= j < |x|
      ensures s[j] != m
    {
      assert s[j] == x[j];
    }
  }

  /** A character missing from both fronts separates the two parts of a string in one way only. */
  lemma SplitAtMark(x: string, y: string, x': string, y': string, m: char)
    requires m !in x && m !in x'
    requires x + [m] + y == x' + [m] + y'
    ensures x == x' && y == y'
  {
    var s := x + [m] + y;
    FirstMark(x, m, y);
    FirstMark(x', m, y');
    assert x == s[..|x|] && x' == s[..|x'|];
    assert y == s[|x| + 1..] && y' == s[|x'| + 1..];
  }

  /** `p` occurs in `s` starting at index `i`. */
  predicate ContainsAt(s: string, p: string, i: int) {
    0 <= i && i + |p| <= |s| && s[i..i + |p|] == p
  }

  /**
   * Ordinal `String.Contains`: `p` occurs somewhere in `s`. As in .NET, the empty string occurs
   * in every string.
   */
  function Contains(s: string, p: string): (b: bool)
    ensures b ==> |p| <= |s|
    ensures p == [] ==> b
  {
    assert p == [] ==> ContainsAt(s, p, 0);
    exists i :: 0 <= i <= |s| - |p| && ContainsAt(s, p, i)
  }

  /** A string that lacks one of the pattern's characters cannot contain the pattern. */
  lemma MissingCharNotContained(s: string, p: string, k: nat)
    requires k < |p| && p[k] !in s
    ensures !Contains(s, p)
  {
  }

  /**
   * An occurrence of `p` in `a + m + b` cannot straddle `m` when no character of `m` occurs in
   * `p`, so it lies inside `a` or inside `b`.
   */
  lemma ContainsAcross(a: string, m: string, b: string, p: string)
    requires |m| > 0
    requires forall k :: 0 <= k < |m| ==> m[k] !in p
    requires !Contains(a, p) && !Contains(b, p)
    ensures !Contains(a + m + b, p)
  {
    var s := a + m + b;
    assert |p| > 0;
    forall i | 0 <= i <= |s| - |p|
      ensures !ContainsAt(s, p, i)
    {
      if i + |p| <= |a| {
        assert s[i..i + |p|] == a[i..i + |p|];
        assert !ContainsAt(a, p, i);
      } else if i >= |a| + |m| {
        var i' := i - |a| - |m|;
        assert s[i..i + |p|] == b[i'..i' + |p|];
        assert !ContainsAt(b, p, i');
      } else {
        var j := if i >= |a| then i else |a|;
        assert s[i..i + |p|][j - i] == m[j - |a|];
        assert m[j - |a|] !in p;
        assert p[j - i] in p;
      }
    }
  }

  /**
   * `String.IndexOf(c, start)`: the first index at or after `start` holding `c`, or -1.
   * .NET throws when `start` exceeds the length, hence the precondition.
   */
  function IndexOfFrom(s: string, c: char, start: nat): (k: int)
    requires start <= |s|
    ensures k == -1 || (start <= k < |s| && s[k] == c)
    ensures k == -1 ==> forall j :: start <= j < |s| ==> s[j] != c
    ensures k != -1 ==> forall j :: start <= j < k ==> s[j] != c
    decreases |s| - start
  {
    if start == |s| then -1
    else if s[start] == c then start
    else IndexOfFrom(s, c, start + 1)
  }
}
