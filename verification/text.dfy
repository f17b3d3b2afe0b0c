/**
 * The Python string operations the core relies on: `str.strip()`,
 * `str.split()`, slicing `[::-1]`, `str.startswith`, case-insensitive
 * comparison and `str(int)`. Strings are sequences of code points, as in
 * Python 3.
 */
module Text {

  /** `str.isspace()` for one code point: the characters Python's argument-less `strip`/`split` treat as whitespace. */
  predicate IsSpace(c: char) {
    || c == ' ' || c == '\t' || c == '\n' || c == '\r'
    || c == '\U{B}' || c == '\U{C}'
    || ('\U{1C}' <= c <= '\U{1F}')
    || c == '\U{85}' || c == '\U{A0}' || c == '\U{1680}'
    || ('\U{2000}' <= c <= '\U{200A}')
    || c == '\U{2028}' || c == '\U{2029}' || c == '\U{202F}' || c == '\U{205F}' || c == '\U{3000}'
  }

  predicate AllSpace(s: string) {
    forall i :: 0 <= i < |s| ==> IsSpace(s[i])
  }

  predicate NoSpace(s: string) {
    forall i :: 0 <= i < |s| ==> !IsSpace(s[i])
  }

  /** `str.lstrip()`: drops the leading whitespace run. */
  function TrimLeft(s: string): string
    decreases |s|
  {
    if |s| > 0 && IsSpace(s[0]) then TrimLeft(s[1..]) else s
  }

  /** `str.rstrip()`: drops the trailing whitespace run. */
  function TrimRight(s: string): string
    decreases |s|
  {
    if |s| > 0 && IsSpace(s[|s| - 1]) then TrimRight(s[..|s| - 1]) else s
  }

  /** `lstrip` keeps a suffix of the text and drops only whitespace before it. */
  lemma {:induction false} TrimLeftShape(s: string)
    ensures var r := TrimLeft(s);
      && |r| <= |s| && r == s[|s| - |r|..]
      && AllSpace(s[..|s| - |r|])
      && (r == [] || !IsSpace(r[0]))
    decreases |s|
  {
    if |s| > 0 && IsSpace(s[0]) {
      TrimLeftShape(s[1..]);
      var k := |s| - |TrimLeft(s)|;
      assert s[..k] == [s[0]] + s[1..][..k - 1];
    }
  }

  /** `rstrip` keeps a prefix of the text and drops only whitespace after it. */
  lemma {:induction false} TrimRightShape(s: string)
    ensures var r := TrimRight(s);
      && |r| <= |s| && r == s[..|r|]
      && AllSpace(s[|r|..])
      && (r == [] || !IsSpace(r[|r| - 1]))
    decreases |s|
  {
    if |s| > 0 && IsSpace(s[|s| - 1]) {
      var init := s[..|s| - 1];
      TrimRightShape(init);
      var k := |TrimRight(s)|;
      assert s[..k] == init[..k];
      assert s[k..] == init[k..] + [s[|s| - 1]];
    }
  }

  /** `str.strip()`. */
  function Strip(s: string): string {
    TrimRight(TrimLeft(s))
  }

  /**
   * What `strip` removes is exactly a whitespace prefix and a whitespace
   * suffix: the result is the infix of the input between two whitespace
   * runs, and it neither starts nor ends with whitespace.
   */
  lemma StripShape(s: string)
    ensures exists i, j :: 0 <= i <= j <= |s| && Strip(s) == s[i..j] && AllSpace(s[..i]) && AllSpace(s[j..])
    ensures Strip(s) == [] || (!IsSpace(Strip(s)[0]) && !IsSpace(Strip(s)[|Strip(s)| - 1]))
  {
    var t := TrimLeft(s);
    var r := TrimRight(t);
    TrimLeftShape(s);
    TrimRightShape(t);
    var i := |s| - |t|;
    var j := i + |r|;
    assert r == s[i..j];
    assert s[j..] == t[|r|..];
  }

  lemma {:induction false} TrimLeftSpacePrefix(p: string, x: string)
    requires AllSpace(p)
    ensures TrimLeft(p + x) == TrimLeft(x)
    decreases |p|
  {
    if p == [] {
      assert p + x == x;
    } else {
      assert (p + x)[0] == p[0];
      assert (p + x)[1..] == p[1..] + x;
      TrimLeftSpacePrefix(p[1..], x);
    }
  }

  lemma {:induction false} TrimRightSpaceSuffix(x: string, q: string)
    requires AllSpace(q)
    ensures TrimRight(x + q) == TrimRight(x)
    decreases |q|
  {
    if q == [] {
      assert x + q == x;
    } else {
      var n := |x + q|;
      assert (x + q)[n - 1] == q[|q| - 1];
      assert (x + q)[..n - 1] == x + q[..|q| - 1];
      TrimRightSpaceSuffix(x, q[..|q| - 1]);
    }
  }

  lemma {:induction false} TrimLeftAppend(x: string, q: string)
    requires !AllSpace(x)
    ensures TrimLeft(x + q) == TrimLeft(x) + q
    decreases |x|
  {
    assert |x| > 0;
    assert (x + q)[0] == x[0];
    if IsSpace(x[0]) {
      assert (x + q)[1..] == x[1..] + q;
      assert !AllSpace(x[1..]) by {
        var k :| 0 <= k < |x| && !IsSpace(x[k]);
        assert x[1..][k - 1] == x[k];
      }
      TrimLeftAppend(x[1..], q);
    }
  }

  /**
   * Whitespace padding on either side never changes the stripped text:
   * this is why grading ignores leading and trailing whitespace.
   */
  lemma {:induction false} StripIgnoresPadding(p: string, s: string, q: string)
    requires AllSpace(p) && AllSpace(q)
    ensures Strip(p + s + q) == Strip(s)
  {
    assert p + s + q == p + (s + q);
    TrimLeftSpacePrefix(p, s + q);
    if AllSpace(s) {
      assert AllSpace(s + q) by {
        forall k | 0 <= k < |s + q| ensures IsSpace((s + q)[k]) {
          if k < |s| { assert (s + q)[k] == s[k]; } else { assert (s + q)[k] == q[k - |s|]; }
        }
      }
      TrimLeftShape(s + q);
      TrimLeftShape(s);
      assert TrimLeft(s + q) == [];
      assert TrimLeft(s) == [];
    } else {
      TrimLeftAppend(s, q);
      TrimRightSpaceSuffix(TrimLeft(s), q);
    }
  }

  /** Text without leading or trailing whitespace is its own stripped form. */
  lemma StripKeepsTrimmedText(s: string)
    requires s == [] || (!IsSpace(s[0]) && !IsSpace(s[|s| - 1]))
    ensures Strip(s) == s
  {
    assert TrimLeft(s) == s;
    assert TrimRight(s) == s;
  }

  /** Stripping twice is the same as stripping once. */
  lemma StripIdempotent(s: string)
    ensures Strip(Strip(s)) == Strip(s)
  {
    StripShape(s);
    StripKeepsTrimmedText(Strip(s));
  }

  /** The longest prefix of `s` holding no whitespace. */
  function TakeWord(s: string): (w: string)
    ensures |w| <= |s| && w == s[..|w|] && NoSpace(w)
    ensures |w| == |s| || IsSpace(s[|w|])
    decreases |s|
  {
    if s == [] || IsSpace(s[0]) then [] else [s[0]] + TakeWord(s[1..])
  }

  /** `str.split()` without arguments: the maximal whitespace-free runs, in order. */
  function Split(s: string): (words: seq<string>)
    ensures forall k :: 0 <= k < |words| ==> |words[k]| > 0 && NoSpace(words[k])
    decreases |s|
  {
    var t := TrimLeft(s);
    TrimLeftShape(s);
    if t == [] then []
    else
      var w := TakeWord(t);
      [w] + Split(t[|w|..])
  }

  /**
   * Reference count of words: the number of positions holding a
   * non-whitespace character that is first or follows whitespace.
   * `atBoundary` says whether the previous character was whitespace (or absent).
   */
  function WordStarts(s: string, atBoundary: bool): nat
    decreases |s|
  {
    if s == [] then 0
    else if IsSpace(s[0]) then WordStarts(s[1..], true)
    else (if atBoundary then 1 else 0) + WordStarts(s[1..], false)
  }

  lemma {:induction false} WordStartsSpacePrefix(p: string, x: string)
    requires AllSpace(p)
    ensures WordStarts(p + x, true) == WordStarts(x, true)
    decreases |p|
  {
    if p == [] {
      assert p + x == x;
    } else {
      assert (p + x)[0] == p[0];
      assert (p + x)[1..] == p[1..] + x;
      WordStartsSpacePrefix(p[1..], x);
    }
  }

  lemma {:induction false} WordStartsWordPrefix(w: string, x: string, b: bool)
    requires |w| > 0 && NoSpace(w)
    ensures WordStarts(w + x, b) == (if b then 1 else 0) + WordStarts(x, false)
    decreases |w|
  {
    assert (w + x)[0] == w[0];
    assert (w + x)[1..] == w[1..] + x;
    if |w| == 1 {
      assert w[1..] + x == x;
    } else {
      WordStartsWordPrefix(w[1..], x, false);
    }
  }

  /** After whitespace (or at the end) the boundary flag makes no difference. */
  lemma BoundaryAfterSpace(rest: string)
    requires rest == [] || IsSpace(rest[0])
    ensures WordStarts(rest, false) == WordStarts(rest, true)
  {
  }

  /** `len(text.split())` counts exactly the word starts of `text`. */
  lemma {:induction false} SplitCountsWordStarts(s: string)
    ensures |Split(s)| == WordStarts(s, true)
    decreases |s|
  {
    var t := TrimLeft(s);
    TrimLeftShape(s);
    assert WordStarts(s, true) == WordStarts(t, true) by {
      var p := s[..|s| - |t|];
      assert s == p + t;
      WordStartsSpacePrefix(p, t);
    }
    if t != [] {
      var w := TakeWord(t);
      var rest := t[|w|..];
      assert |Split(s)| == 1 + |Split(rest)|;
      assert WordStarts(t, true) == 1 + WordStarts(rest, true) by {
        assert t == w + rest;
        WordStartsWordPrefix(w, rest, true);
        BoundaryAfterSpace(rest);
      }
      SplitCountsWordStarts(rest);
    }
  }

  /** `s[::-1]`: the code points of `s` in reverse order. */
  function Reverse(s: string): (r: string)
    ensures |r| == |s|
    ensures forall i :: 0 <= i < |s| ==> r[i] == s[|s| - 1 - i]
  {
    if s == [] then [] else Reverse(s[1..]) + [s[0]]
  }

  /** Reversing twice gives the original text back. */
  lemma ReverseInvolutive(s: string)
    ensures Reverse(Reverse(s)) == s
  {
  }

  /** `s.startswith(prefix)`. */
  predicate StartsWith(s: string, prefix: string) {
    |prefix| <= |s| && s[..|prefix|] == prefix
  }

  /** ASCII lower-casing of one code point; other code points are left alone. */
  function Lower(c: char): char {
    if 'A' <= c <= 'Z' then (c as int + 32) as char else c
  }

  function FoldCase(s: string): string {
    seq(|s|, i requires 0 <= i < |s| => Lower(s[i]))
  }

  /** Case-insensitive equality, the `iexact` lookup of the database layer (ASCII folding). */
  predicate EqualsIgnoreCase(a: string, b: string) {
    FoldCase(a) == FoldCase(b)
  }

  predicate IsDigit(c: char) {
    '0' <= c <= '9'
  }

  predicate AllDigits(s: string) {
    forall i :: 0 <= i < |s| ==> IsDigit(s[i])
  }

  function DigitChar(d: nat): (c: char)
    requires d < 10
  {
    "0123456789"[d]
  }

  /** Decimal digits of a natural number, as `str(n)` prints them. */
  function NatToString(n: nat): (r: string)
    ensures |r| > 0 && AllDigits(r)
    ensures r[0] == '0' ==> r == "0"
    decreases n
  {
    if n < 10 then [DigitChar(n)] else NatToString(n / 10) + [DigitChar(n % 10)]
  }

  /** `str(i)` for a Python `int`. */
  function IntToString(i: int): string {
    if i < 0 then "-" + NatToString(-i) else NatToString(i)
  }

  function ParseNat(s: string): nat
    requires AllDigits(s)
  {
    if s == [] then 0 else ParseNat(s[..|s| - 1]) * 10 + (s[|s| - 1] as int - '0' as int)
  }

  /** Reads back a decimal integer with an optional leading minus sign. */
  function ParseInt(s: string): int
    requires AllDigits(s) || (|s| > 0 && s[0] == '-' && AllDigits(s[1..]))
  {
    if |s| > 0 && s[0] == '-' then 0 - ParseNat(s[1..]) else ParseNat(s)
  }

  lemma {:induction false} NatToStringRoundTrip(n: nat)
    ensures ParseNat(NatToString(n)) == n
    decreases n
  {
    if n >= 10 {
      var a := NatToString(n / 10);
      var s := a + [DigitChar(n % 10)];
      assert s[..|s| - 1] == a;
      NatToStringRoundTrip(n / 10);
    }
  }

  /** `str(i)` is read back as `i`: the rendering loses nothing. */
  lemma IntToStringRoundTrip(i: int)
    ensures var s := IntToString(i);
      (AllDigits(s) || (|s| > 0 && s[0] == '-' && AllDigits(s[1..]))) && ParseInt(s) == i
  {
    if i < 0 {
      NegativeRoundTrip(i);
    } else {
      NatToStringRoundTrip(i);
    }
  }

  lemma NegativeRoundTrip(i: int)
    requires i < 0
    ensures IntToString(i) == "-" + NatToString(-i)
    ensures ParseInt("-" + NatToString(-i)) == i
  {
    assert ParseInt("-" + NatToString(-i)) == i by {
      NatToStringRoundTrip(-i);
      ParseNegated(NatToString(-i));
    }
  }

  /** A minus sign in front of a digit string negates its value. */
  lemma ParseNegated(d: string)
    requires AllDigits(d) && |d| > 0
    ensures var s := "-" + d;
      |s| > 0 && s[0] == '-' && AllDigits(s[1..]) && ParseInt(s) == 0 - ParseNat(d)
  {
    assert ("-" + d)[1..] == d;
  }
}
