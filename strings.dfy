/** The few JavaScript string operations the components rely on:
    `startsWith`, `endsWith`, `split(sep)[0]` and `trim`. */
module Strings {

  /** `s.startsWith(prefix)` */
  predicate StartsWith(s: string, prefix: string) {
    prefix <= s
  }

  /** `s.endsWith(suffix)` */
  predicate EndsWith(s: string, suffix: string) {
    |suffix| <= |s| && s[|s| - |suffix|..] == suffix
  }

  /** `t` occurs in `s` as a contiguous piece. */
  ghost predicate Contains(s: string, t: string) {
    exists i :: OccursAt(s, t, i)
  }

  /** `t` occurs in `s` starting at index `i`. */
  predicate OccursAt(s: string, t: string, i: int) {
    0 <= i <= |s| - |t| && s[i..i + |t|] == t
  }

  /** What is written between two pieces of text occurs in the whole. */
  lemma ContainsMiddle(a: string, t: string, b: string)
    ensures Contains(a + t + b, t)
  {
    var s := a + t + b;
    assert OccursAt(s, t, |a|);
  }

  lemma ContainsTransitive(s: string, t: string, u: string)
    requires Contains(s, t) && Contains(t, u)
    ensures Contains(s, u)
  {
    var i :| OccursAt(s, t, i);
    var j :| OccursAt(t, u, j);
    forall k | 0 <= k < |u| ensures s[i + j + k] == u[k] {
      assert u[k] == t[j + k] == s[i + j + k];
    }
    assert OccursAt(s, u, i + j);
  }

  /** `s.split(sep)[0]`: the text before the first `sep`, or all of `s` when it has none. */
  function BeforeFirst(s: string, sep: char): (r: string)
    ensures r <= s
    ensures sep !in r
    ensures |r| < |s| ==> s[|r|] == sep
    ensures sep !in s ==> r == s
  {
    if s == [] then []
    else if s[0] == sep then []
    else [s[0]] + BeforeFirst(s[1..], sep)
  }

  /** The characters ECMAScript's `trim` removes: WhiteSpace and LineTerminator. */
  const WhitespaceChars: seq<char> := [
    '\t', '\n', '\U{000B}', '\U{000C}', '\r', ' ', '\U{00A0}', '\U{1680}',
    '\U{2000}', '\U{2001}', '\U{2002}', '\U{2003}', '\U{2004}', '\U{2005}',
    '\U{2006}', '\U{2007}', '\U{2008}', '\U{2009}', '\U{200A}',
    '\U{2028}', '\U{2029}', '\U{202F}', '\U{205F}', '\U{3000}', '\U{FEFF}'
  ]

  /** `c` is one of `chars`. */
  predicate OneOf(c: char, chars: seq<char>) {
    chars != [] && (chars[0] == c || OneOf(c, chars[1..]))
  }

  predicate IsWhitespace(c: char) {
    OneOf(c, WhitespaceChars)
  }

  /** Every character of `s` from index `lo` up to `hi` is whitespace. */
  predicate WhitespaceBetween(s: string, lo: int, hi: int)
    requires 0 <= lo <= hi <= |s|
  {
    forall i :: lo <= i < hi ==> IsWhitespace(s[i])
  }

  predicate AllWhitespace(s: string) {
    WhitespaceBetween(s, 0, |s|)
  }

  /** The index of the first character at or after `i` that is not whitespace,
      or `|s|` when there is none. */
  function SkipForward(s: string, i: nat): (j: nat)
    requires i <= |s|
    ensures i <= j <= |s|
    ensures WhitespaceBetween(s, i, j)
    ensures j < |s| ==> !IsWhitespace(s[j])
    decreases |s| - i
  {
    if i < |s| && IsWhitespace(s[i]) then SkipForward(s, i + 1) else i
  }

  /** The end of `s[lo..hi]` once its trailing whitespace is dropped. */
  function SkipBackward(s: string, lo: nat, hi: nat): (j: nat)
    requires lo <= hi <= |s|
    ensures lo <= j <= hi
    ensures WhitespaceBetween(s, j, hi)
    ensures j > lo ==> !IsWhitespace(s[j - 1])
    decreases hi - lo
  {
    if hi > lo && IsWhitespace(s[hi - 1]) then SkipBackward(s, lo, hi - 1) else hi
  }

  /** How many whitespace characters `trim` drops at the front. */
  function LeadingWhitespace(s: string): (n: nat)
    ensures n <= |s|
  {
    SkipForward(s, 0)
  }

  /** `s.trim()`: the piece of `s` that starts after its leading whitespace and is
      followed only by whitespace, with no whitespace at either end; empty exactly
      when `s` is all whitespace. */
  function Trim(s: string): (r: string)
    ensures |r| <= |s| - LeadingWhitespace(s)
    ensures r == s[LeadingWhitespace(s)..LeadingWhitespace(s) + |r|]
    ensures WhitespaceBetween(s, LeadingWhitespace(s) + |r|, |s|)
    ensures r == [] <==> AllWhitespace(s)
    ensures r != [] ==> !IsWhitespace(r[0]) && !IsWhitespace(r[|r| - 1])
  {
    var k := SkipForward(s, 0);
    var e := SkipBackward(s, k, |s|);
    TrimmedAway(s, k, e);
    s[k..e]
  }

  /** What `Trim` drops is whitespace, and what it keeps is empty only when all of
      `s` was whitespace. */
  lemma TrimmedAway(s: string, k: nat, e: nat)
    requires k == SkipForward(s, 0) && e == SkipBackward(s, k, |s|)
    ensures e == k <==> AllWhitespace(s)
  {
    if e == k {
      assert WhitespaceBetween(s, 0, k) && WhitespaceBetween(s, k, |s|);
    } else {
      assert !IsWhitespace(s[k]);
    }
  }

  /** Trimming twice is trimming once: the trimmed text has nothing left to drop. */
  lemma TrimIdempotent(s: string)
    ensures Trim(Trim(s)) == Trim(s)
  {
  }
}
