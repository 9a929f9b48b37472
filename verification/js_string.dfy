/**
 * The few ECMAScript string built-ins the wizard relies on, over `seq<char>`:
 * `String.prototype.trim`, `replace` with a one-character string pattern
 * (with `IndexOf`, the first-occurrence search it performs),
 * `Array.prototype.join` with a one-character separator, and the decimal
 * conversion of an integer that a template literal performs. `Split` is not
 * called by the wizard: it is the inverse of `join`, used to state that
 * joining loses nothing.
 */
module JsString {

  /** WhiteSpace and LineTerminator code points: the characters `trim` removes. */
  const Whitespace: set<char> := {
    '\t', '\n', '\U{000B}', '\U{000C}', '\r', ' ', '\U{00A0}', '\U{1680}',
    '\U{2000}', '\U{2001}', '\U{2002}', '\U{2003}', '\U{2004}', '\U{2005}', '\U{2006}',
    '\U{2007}', '\U{2008}', '\U{2009}', '\U{200A}',
    '\U{2028}', '\U{2029}', '\U{202F}', '\U{205F}', '\U{3000}', '\U{FEFF}'
  }

  predicate IsWhitespace(c: char) {
    c in Whitespace
  }

  /** Every character of `s` at a position in [lo, hi) belongs to `cs`. */
  predicate AllIn(s: string, cs: set<char>, lo: int, hi: int) {
    forall k :: lo <= k < hi && 0 <= k < |s| ==> s[k] in cs
  }

  predicate AllWhitespace(s: string) {
    AllIn(s, Whitespace, 0, |s|)
  }

  /** The first position at or after `i` that is not in `cs` (or `|s|`). */
  function SkipForward(s: string, cs: set<char>, i: nat): (j: nat)
    requires i <= |s|
    ensures i <= j <= |s| && AllIn(s, cs, i, j)
    ensures j < |s| ==> s[j] !in cs
    decreases |s| - i
  {
    if i < |s| && s[i] in cs then SkipForward(s, cs, i + 1) else i
  }

  /** The smallest `k` in [lo, j] such that every character in [k, j) is in `cs`. */
  function SkipBackward(s: string, cs: set<char>, lo: nat, j: nat): (k: nat)
    requires lo <= j <= |s|
    ensures lo <= k <= j && AllIn(s, cs, k, j)
    ensures k > lo ==> s[k - 1] !in cs
  {
    if j > lo && s[j - 1] in cs then SkipBackward(s, cs, lo, j - 1) else j
  }

  /**
   * `s` without the characters from `cs` at either end: the slice between
   * its leading run and its trailing run.
   */
  function Strip(s: string, cs: set<char>): (r: string)
    ensures |r| <= |s|
    ensures r != [] ==> r[0] !in cs && r[|r| - 1] !in cs
    ensures exists i, j :: 0 <= i <= j <= |s| && r == s[i..j] && AllIn(s, cs, 0, i) && AllIn(s, cs, j, |s|)
  {
    var i := SkipForward(s, cs, 0);
    var j := SkipBackward(s, cs, i, |s|);
    s[i..j]
  }

  /** A string is stripped to nothing exactly when all its characters are in `cs`. */
  lemma {:induction false} StripEmptyIff(s: string, cs: set<char>)
    ensures Strip(s, cs) == [] <==> AllIn(s, cs, 0, |s|)
  {
    var i := SkipForward(s, cs, 0);
    var j := SkipBackward(s, cs, i, |s|);
    if Strip(s, cs) == [] {
      assert i == j;
      assert AllIn(s, cs, 0, |s|) by {
        assert AllIn(s, cs, 0, i) && AllIn(s, cs, i, |s|);
      }
    } else {
      assert i < |s| && s[i] !in cs;
    }
  }

  /** A string that neither starts nor ends with a character from `cs` is its own strip. */
  lemma {:induction false} StripOfUnpadded(s: string, cs: set<char>)
    requires s != [] ==> s[0] !in cs && s[|s| - 1] !in cs
    ensures Strip(s, cs) == s
  {
    assert SkipForward(s, cs, 0) == 0;
    assert SkipBackward(s, cs, 0, |s|) == |s|;
  }

  /** Stripping twice is stripping once. */
  lemma {:induction false} StripIdempotent(s: string, cs: set<char>)
    ensures Strip(Strip(s, cs), cs) == Strip(s, cs)
  {
    StripOfUnpadded(Strip(s, cs), cs);
  }

  /** `String.prototype.trim`: strip WhiteSpace and LineTerminator characters at both ends. */
  function Trim(s: string): (r: string)
    ensures r == [] <==> AllWhitespace(s)
    ensures r != [] ==> !IsWhitespace(r[0]) && !IsWhitespace(r[|r| - 1])
    ensures exists i, j :: 0 <= i <= j <= |s| && r == s[i..j] && AllIn(s, Whitespace, 0, i) && AllIn(s, Whitespace, j, |s|)
  {
    StripEmptyIff(s, Whitespace);
    Strip(s, Whitespace)
  }

  /** `s.indexOf(c)`: the first position of `c` in `s`, or -1 when there is none. */
  function IndexOf(s: string, c: char): (r: int)
    ensures -1 <= r < |s|
    ensures r == -1 <==> c !in s
    ensures r >= 0 ==> s[r] == c && forall j :: 0 <= j < r ==> s[j] != c
  {
    if s == [] then -1
    else if s[0] == c then 0
    else
      var k := IndexOf(s[1..], c);
      if k == -1 then -1 else k + 1
  }

  /** The first `c` of `a + [c] + rest` is the one after `a` when `a` holds none. */
  lemma {:induction false} IndexOfAfterPrefix(a: string, c: char, rest: string)
    requires c !in a
    ensures IndexOf(a + [c] + rest, c) == |a|
  {
    if a != [] {
      IndexOfAfterPrefix(a[1..], c, rest);
      assert (a + [c] + rest)[1..] == a[1..] + [c] + rest;
    }
  }

  /**
   * `s.replace(c, '')` with a one-character string pattern: the first `c`,
   * found as `indexOf` finds it, is cut out; later ones stay.
   */
  function RemoveFirst(s: string, c: char): (r: string)
    ensures c !in s ==> r == s
    ensures c in s ==> |r| == |s| - 1 && c !in r[..IndexOf(s, c)]
    ensures c in s ==> r[..IndexOf(s, c)] == s[..IndexOf(s, c)] && r[IndexOf(s, c)..] == s[IndexOf(s, c) + 1..]
  {
    var i := IndexOf(s, c);
    if i == -1 then s else s[..i] + s[i + 1..]
  }

  /** `xs.join(sep)` for a one-character separator. */
  function Join(xs: seq<string>, sep: char): (r: string)
    ensures |xs| > 0 ==> xs[0] <= r
    ensures |xs| > 1 ==> |xs[0]| < |r| && r[|xs[0]|] == sep
    ensures |xs| == 1 ==> r == xs[0]
  {
    if |xs| == 0 then ""
    else if |xs| == 1 then xs[0]
    else xs[0] + [sep] + Join(xs[1..], sep)
  }

  /** `s.split(sep)` for a one-character separator: never empty, "" splits to [""]. */
  function Split(s: string, sep: char): (r: seq<string>)
    ensures |r| > 0
    decreases |s|
  {
    var i := IndexOf(s, sep);
    if i == -1 then [s] else [s[..i]] + Split(s[i + 1..], sep)
  }

  /** Splitting a join gives the parts back when none of them holds the separator. */
  lemma {:induction false} SplitJoin(xs: seq<string>, sep: char)
    requires |xs| > 0
    requires forall k :: 0 <= k < |xs| ==> sep !in xs[k]
    ensures Split(Join(xs, sep), sep) == xs
  {
    if |xs| > 1 {
      var s := Join(xs, sep);
      var tail := Join(xs[1..], sep);
      assert s == xs[0] + [sep] + tail;
      IndexOfAfterPrefix(xs[0], sep, tail);
      assert s[..|xs[0]|] == xs[0];
      assert s[|xs[0]| + 1..] == tail;
      SplitJoin(xs[1..], sep);
    }
  }

  /** The decimal digit for `d`. */
  function DigitChar(d: nat): (c: char)
    requires d < 10
  {
    "0123456789"[d]
  }

  /** The value of a decimal digit character (meaningful on '0' to '9'). */
  function DigitValue(c: char): nat {
    if '0' <= c <= '9' then (c as int) - ('0' as int) else 0
  }

  /** The decimal numeral of `n`, without sign or leading zeros. */
  function NatToString(n: nat): (r: string)
    ensures |r| > 0 && forall k :: 0 <= k < |r| ==> '0' <= r[k] <= '9'
  {
    if n < 10 then [DigitChar(n)] else NatToString(n / 10) + [DigitChar(n % 10)]
  }

  /** The number a string of decimal digits denotes. */
  function DecimalValue(s: string): nat {
    if s == [] then 0 else 10 * DecimalValue(s[..|s| - 1]) + DigitValue(s[|s| - 1])
  }

  /** Reading back a numeral gives the number it was printed from. */
  lemma {:induction false} DecimalValueOfNatToString(n: nat)
    ensures DecimalValue(NatToString(n)) == n
  {
    if n >= 10 {
      DecimalValueOfNatToString(n / 10);
      var s := NatToString(n);
      assert s[..|s| - 1] == NatToString(n / 10);
    }
  }

  /** `${i}` for an integer `i`: a '-' sign before the digits when negative. */
  function IntToString(i: int): (r: string)
    ensures |r| > 0
    ensures r[0] == '-' <==> i < 0
  {
    if i < 0 then "-" + NatToString(-i) else NatToString(i)
  }

  /** The integer an optionally '-'-signed decimal numeral denotes. */
  function ParseInt(s: string): int {
    if s != [] && s[0] == '-' then -(DecimalValue(s[1..]) as int) else DecimalValue(s)
  }

  /** Reading back a printed integer gives the integer. */
  lemma {:induction false} ParseIntOfIntToString(i: int)
    ensures ParseInt(IntToString(i)) == i
  {
    if i < 0 {
      var n: nat := -i;
      assert IntToString(i) == "-" + NatToString(n);
      assert ("-" + NatToString(n))[1..] == NatToString(n);
      DecimalValueOfNatToString(n);
    } else {
      DecimalValueOfNatToString(i);
    }
  }

  /** Distinct integers print as distinct strings. */
  lemma {:induction false} IntToStringInjective(i: int, j: int)
    requires IntToString(i) == IntToString(j)
    ensures i == j
  {
    ParseIntOfIntToString(i);
    ParseIntOfIntToString(j);
  }
}
