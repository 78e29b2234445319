/**
 * The Python string operations the core relies on: `isspace`, `lower`/`upper`,
 * `strip`, `split()`, `sep.join`, `in`, `split(sep)[k]` and slicing.
 * Case mapping covers ASCII letters only; whitespace is CPython's full set.
 */
module Text {

  /** `c.isspace()` in CPython. */
  predicate IsSpace(c: char) {
    c == ' ' || ('\t' <= c <= '\r') || ('\U{1C}' <= c <= '\U{1F}')
    || c == '\U{85}' || c == '\U{A0}' || c == '\U{1680}'
    || ('\U{2000}' <= c <= '\U{200A}') || c == '\U{2028}' || c == '\U{2029}'
    || c == '\U{202F}' || c == '\U{205F}' || c == '\U{3000}'
  }

  function LowerChar(c: char): char {
    if 'A' <= c <= 'Z' then (c as int + 32) as char else c
  }

  function UpperChar(c: char): char {
    if 'a' <= c <= 'z' then (c as int - 32) as char else c
  }

  function Lower(s: string): (r: string)
    ensures |r| == |s|
  {
    seq(|s|, i requires 0 <= i < |s| => LowerChar(s[i]))
  }

  function Upper(s: string): (r: string)
    ensures |r| == |s|
  {
    seq(|s|, i requires 0 <= i < |s| => UpperChar(s[i]))
  }

  predicate AllLower(s: string) {
    forall i :: 0 <= i < |s| ==> LowerChar(s[i]) == s[i]
  }

  lemma LowerIsLower(s: string)
    ensures AllLower(Lower(s)) && Lower(Lower(s)) == Lower(s)
  {
  }

  lemma LowerConcat(a: string, b: string)
    ensures Lower(a + b) == Lower(a) + Lower(b)
  {
  }

  // ---------------------------------------------------------------------------
  // strip()

  function LStrip(s: string): (r: string)
    ensures |r| <= |s| && r == s[|s| - |r|..]
    ensures forall i :: 0 <= i < |s| - |r| ==> IsSpace(s[i])
    ensures |r| > 0 ==> !IsSpace(r[0])
  {
    if |s| > 0 && IsSpace(s[0]) then LStrip(s[1..]) else s
  }

  function RStrip(s: string): (r: string)
    ensures |r| <= |s| && r == s[..|r|]
    ensures forall i :: |r| <= i < |s| ==> IsSpace(s[i])
    ensures |r| > 0 ==> !IsSpace(r[|r| - 1])
  {
    if |s| > 0 && IsSpace(s[|s| - 1]) then RStrip(s[..|s| - 1]) else s
  }

  /** `s.strip()`: `s` without its leading and trailing whitespace. */
  function Strip(s: string): string {
    RStrip(LStrip(s))
  }

  /** A text with no whitespace at either end is its own `strip()`. */
  lemma StripNoOuterSpace(s: string)
    requires |s| > 0 && !IsSpace(s[0]) && !IsSpace(s[|s| - 1])
    ensures Strip(s) == s
  {
  }

  // ---------------------------------------------------------------------------
  // split() and join

  predicate IsWord(w: string) {
    |w| > 0 && forall i :: 0 <= i < |w| ==> !IsSpace(w[i])
  }

  predicate AllSpace(s: string) {
    forall i :: 0 <= i < |s| ==> IsSpace(s[i])
  }

  /** Length of the run of non-whitespace characters that starts `s`. */
  function WordLen(s: string): (n: nat)
    ensures n <= |s|
    ensures forall i :: 0 <= i < n ==> !IsSpace(s[i])
    ensures n < |s| ==> IsSpace(s[n])
  {
    if |s| == 0 || IsSpace(s[0]) then 0 else 1 + WordLen(s[1..])
  }

  /** `s.split()` with no separator: the maximal runs of non-whitespace. */
  function SplitWords(s: string): (ws: seq<string>)
    ensures forall k :: 0 <= k < |ws| ==> IsWord(ws[k])
    decreases |s|
  {
    if |s| == 0 then []
    else if IsSpace(s[0]) then SplitWords(s[1..])
    else
      var n := WordLen(s);
      [s[..n]] + SplitWords(s[n..])
  }

  /** `sep.join(parts)`. */
  function Join(sep: string, parts: seq<string>): string {
    if |parts| == 0 then ""
    else if |parts| == 1 then parts[0]
    else parts[0] + sep + Join(sep, parts[1..])
  }

  lemma {:induction false} WordLenOfWordThenSpace(w: string, t: string)
    requires forall i :: 0 <= i < |w| ==> !IsSpace(w[i])
    requires |t| == 0 || IsSpace(t[0])
    ensures WordLen(w + t) == |w|
  {
    if |w| > 0 {
      assert (w + t)[1..] == w[1..] + t;
      WordLenOfWordThenSpace(w[1..], t);
    } else {
      assert w + t == t;
    }
  }

  lemma {:induction false} SplitAllSpace(s: string)
    requires AllSpace(s)
    ensures SplitWords(s) == []
    decreases |s|
  {
    if |s| > 0 {
      SplitAllSpace(s[1..]);
    }
  }

  /** Splitting a space-joined list of words gives the words back. */
  lemma {:induction false} SplitJoin(ws: seq<string>)
    requires forall k :: 0 <= k < |ws| ==> IsWord(ws[k])
    ensures SplitWords(Join(" ", ws)) == ws
  {
    if |ws| == 1 {
      var w := ws[0];
      WordLenOfWordThenSpace(w, "");
      assert w + "" == w;
      assert w[..|w|] == w;
    } else if |ws| > 1 {
      var w, rest := ws[0], Join(" ", ws[1..]);
      var s := w + " " + rest;
      assert s == w + (" " + rest);
      WordLenOfWordThenSpace(w, " " + rest);
      assert s[..|w|] == w;
      assert s[|w|..] == " " + rest;
      assert (" " + rest)[1..] == rest;
      SplitJoin(ws[1..]);
      assert ws == [w] + ws[1..];
    }
  }

  /** Trailing whitespace does not change `split()`. */
  lemma {:induction false} SplitIgnoresTrailing(a: string, b: string)
    requires AllSpace(b)
    ensures SplitWords(a + b) == SplitWords(a)
    decreases |a|
  {
    if |a| == 0 {
      assert a + b == b;
      SplitAllSpace(b);
    } else if IsSpace(a[0]) {
      assert (a + b)[1..] == a[1..] + b;
      SplitIgnoresTrailing(a[1..], b);
    } else {
      var n := WordLen(a);
      assert a + b == a[..n] + (a[n..] + b);
      WordLenOfWordThenSpace(a[..n], a[n..] + b);
      assert (a + b)[..n] == a[..n];
      assert (a + b)[n..] == a[n..] + b;
      SplitIgnoresTrailing(a[n..], b);
    }
  }

  lemma {:induction false} SplitIgnoresLeading(s: string)
    ensures SplitWords(LStrip(s)) == SplitWords(s)
    decreases |s|
  {
    if |s| > 0 && IsSpace(s[0]) {
      SplitIgnoresLeading(s[1..]);
    }
  }

  /** `split()` already discards the whitespace `strip()` removes. */
  lemma SplitOfStrip(s: string)
    ensures SplitWords(Strip(s)) == SplitWords(s)
  {
    var l := LStrip(s);
    var r := RStrip(l);
    var tail := l[|r|..];
    assert AllSpace(tail) by {
      forall i | 0 <= i < |tail|
        ensures IsSpace(tail[i])
      {
        assert tail[i] == l[|r| + i];
      }
    }
    assert l == r + tail;
    SplitIgnoresTrailing(r, tail);
    SplitIgnoresLeading(s);
    assert Strip(s) == r;
  }

  lemma {:induction false} JoinAllLower(sep: string, ws: seq<string>)
    requires AllLower(sep)
    requires forall k :: 0 <= k < |ws| ==> AllLower(ws[k])
    ensures AllLower(Join(sep, ws))
  {
    if |ws| > 1 {
      JoinAllLower(sep, ws[1..]);
    }
  }

  lemma {:induction false} SplitAllLower(s: string)
    requires AllLower(s)
    ensures forall k :: 0 <= k < |SplitWords(s)| ==> AllLower(SplitWords(s)[k])
    decreases |s|
  {
    if |s| > 0 {
      if IsSpace(s[0]) {
        SplitAllLower(s[1..]);
      } else {
        SplitAllLower(s[WordLen(s)..]);
      }
    }
  }

  lemma AllLowerFixed(s: string)
    requires AllLower(s)
    ensures Lower(s) == s
  {
  }

  // ---------------------------------------------------------------------------
  // substring search, `split(sep)[k]` and slicing

  predicate StartsWith(s: string, p: string) {
    |p| <= |s| && s[..|p|] == p
  }

  predicate EndsWith(s: string, p: string) {
    |p| <= |s| && s[|s| - |p|..] == p
  }

  predicate OccursAt(s: string, sub: string, i: nat) {
    i + |sub| <= |s| && s[i..i + |sub|] == sub
  }

  /** `sub in s`. */
  predicate Contains(s: string, sub: string) {
    exists i: nat :: i <= |s| && OccursAt(s, sub, i)
  }

  lemma OccursShift(s: string, sub: string, i: nat)
    requires |s| > 0
    ensures OccursAt(s, sub, i + 1) <==> OccursAt(s[1..], sub, i)
  {
    if i + 1 + |sub| <= |s| {
      assert s[i + 1..i + 1 + |sub|] == s[1..][i..i + |sub|];
    }
  }

  /**
   * `s.split(sep)[0]`: the text of `s` before the first occurrence of `sep`,
   * or all of `s` when `sep` does not occur.
   */
  function Before(s: string, sep: string): (r: string)
    requires |sep| > 0
    ensures |r| <= |s| && r == s[..|r|]
    ensures forall i: nat :: i < |r| ==> !OccursAt(s, sep, i)
    ensures |r| < |s| ==> OccursAt(s, sep, |r|)
    decreases |s|
  {
    if |s| < |sep| then s
    else if s[..|sep|] == sep then ""
    else
      var r := [s[0]] + Before(s[1..], sep);
      assert forall i: nat :: 0 < i ==> (OccursAt(s, sep, i) <==> OccursAt(s[1..], sep, i - 1)) by {
        forall i: nat | 0 < i ensures OccursAt(s, sep, i) <==> OccursAt(s[1..], sep, i - 1) {
          OccursShift(s, sep, i - 1);
        }
      }
      r
  }

  /** `s.split(sep)[1]` for a text `s` that starts with `sep`. */
  function SplitSecond(s: string, sep: string): string
    requires |sep| > 0 && StartsWith(s, sep)
  {
    Before(s[|sep|..], sep)
  }

  /**
   * Cutting at a longer separator `a` and then at its prefix `b` gives the text
   * before the first `b`, unless an `a` starts strictly inside that first `b`.
   */
  lemma BeforeOfBefore(s: string, a: string, b: string)
    requires |b| > 0 && StartsWith(a, b)
    ensures (forall i: nat :: |Before(s, b)| < i < |Before(s, b)| + |b| ==> !OccursAt(s, a, i))
      ==> Before(Before(s, a), b) == Before(s, b)
  {
    if forall i: nat :: |Before(s, b)| < i < |Before(s, b)| + |b| ==> !OccursAt(s, a, i) {
      BeforeOfBeforeInside(s, a, b);
    }
  }

  lemma BeforeOfBeforeInside(s: string, a: string, b: string)
    requires |b| > 0 && StartsWith(a, b)
    requires forall i: nat :: |Before(s, b)| < i < |Before(s, b)| + |b| ==> !OccursAt(s, a, i)
    ensures Before(Before(s, a), b) == Before(s, b)
  {
    var p := Before(s, b);
    var q := Before(s, a);
    var r := Before(q, b);
    if |r| < |q| {
      OccursInPrefix(s, q, b, |r|);
    }
    if |q| < |s| {
      OccursOfPrefix(s, a, b, |q|);
    }
    assert |p| <= |r|;
    if |p| < |s| && |p| + |b| <= |q| {
      OccursInPrefix(s, q, b, |p|);
    }
    assert |r| <= |p|;
  }

  /** Cutting twice at the same separator is cutting once. */
  lemma BeforeIdempotent(s: string, sep: string)
    requires |sep| > 0
    ensures Before(Before(s, sep), sep) == Before(s, sep)
  {
    var p := Before(s, sep);
    var r := Before(p, sep);
    OccursInPrefix(s, p, sep, |r|);
    assert |r| == |p|;
  }

  lemma OccursInPrefix(s: string, t: string, sub: string, i: nat)
    requires |t| <= |s| && t == s[..|t|]
    ensures OccursAt(t, sub, i) <==> i + |sub| <= |t| && OccursAt(s, sub, i)
  {
    if i + |sub| <= |t| {
      assert t[i..i + |sub|] == s[i..i + |sub|];
    }
  }

  lemma OccursOfPrefix(s: string, a: string, b: string, i: nat)
    requires StartsWith(a, b) && OccursAt(s, a, i)
    ensures OccursAt(s, b, i)
  {
    assert s[i..i + |b|] == a[..|b|];
  }

  /** `s[:n]` for a non-negative `n`. */
  function Take(s: string, n: nat): (r: string)
    ensures |r| == if n < |s| then n else |s|
    ensures r == s[..|r|]
  {
    if n < |s| then s[..n] else s
  }

  /** `s[-n:]` for `n > 0`: the last `n` elements (all of them when there are fewer). */
  function Last<T>(s: seq<T>, n: nat): (r: seq<T>)
    ensures |r| == if n < |s| then n else |s|
    ensures r == s[|s| - |r|..]
  {
    if n < |s| then s[|s| - n..] else s
  }

  /** `s[start:]` with Python's rules for negative and out-of-range starts. */
  function SliceFrom<T>(s: seq<T>, start: int): seq<T> {
    if start >= 0 then (if start >= |s| then [] else s[start..])
    else if -start >= |s| then s
    else s[|s| + start..]
  }

  function DigitChar(d: nat): char
    requires d < 10
  {
    ('0' as int + d) as char
  }

  /** `str(n)` for a natural number. */
  function NatToString(n: nat): (r: string)
    ensures |r| > 0
    ensures forall i :: 0 <= i < |r| ==> '0' <= r[i] <= '9'
  {
    if n < 10 then [DigitChar(n)] else NatToString(n / 10) + [DigitChar(n % 10)]
  }
}
