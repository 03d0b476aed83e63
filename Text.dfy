/**
 * The few pieces of Kotlin's string library the view-models rely on:
 * `length`, `isBlank`, `trim`, `indexOf`, `substringAfter` and `contains(..., ignoreCase = true)`.
 */
module Text {
  import opened Wrappers

  /**
   * Kotlin's `Char.isWhitespace()` on the JVM: `Character.isWhitespace(c) || Character.isSpaceChar(c)`.
   */
  predicate IsWhitespace(c: char) {
    || c == ' ' || c == '\t' || c == '\n' || c == '\U{000B}' || c == '\U{000C}' || c == '\r'
    || ('\U{001C}' <= c <= '\U{001F}')
    || c == '\U{00A0}' || c == '\U{1680}' || ('\U{2000}' <= c <= '\U{200A}')
    || c == '\U{2028}' || c == '\U{2029}' || c == '\U{202F}' || c == '\U{205F}' || c == '\U{3000}'
  }

  /** Kotlin's `CharSequence.isBlank()`: empty or whitespace only. */
  predicate IsBlank(s: string) {
    forall i :: 0 <= i < |s| ==> IsWhitespace(s[i])
  }

  /** UTF-16 code units of one character: two for a character outside the Basic Multilingual Plane. */
  function CodeUnits(c: char): nat {
    if c as int < 0x1_0000 then 1 else 2
  }

  /**
   * Kotlin's `String.length`, which counts UTF-16 code units: at least one and at most two per
   * character, exactly one per character for text within the Basic Multilingual Plane.
   */
  function Utf16Length(s: string): (n: nat)
    ensures |s| <= n <= 2 * |s|
    ensures n == 0 <==> s == []
    ensures (forall i :: 0 <= i < |s| ==> s[i] as int < 0x1_0000) ==> n == |s|
  {
    if s == [] then 0 else CodeUnits(s[0]) + Utf16Length(s[1..])
  }

  /** Number of leading whitespace characters. */
  function LeadingWhitespace(s: string): (k: nat)
    ensures k <= |s| && IsBlank(s[..k])
    ensures k == |s| || !IsWhitespace(s[k])
  {
    if s == [] || !IsWhitespace(s[0]) then 0
    else
      var k := 1 + LeadingWhitespace(s[1..]);
      assert s[..k] == [s[0]] + s[1..][..k - 1];
      k
  }

  /** Index at which the trailing whitespace of `s` starts. */
  function TrailingWhitespaceStart(s: string): (k: nat)
    ensures k <= |s| && IsBlank(s[k..])
    ensures k == 0 || !IsWhitespace(s[k - 1])
  {
    if s == [] || !IsWhitespace(s[|s| - 1]) then |s|
    else
      var k := TrailingWhitespaceStart(s[..|s| - 1]);
      assert s[k..] == s[..|s| - 1][k..] + [s[|s| - 1]];
      k
  }

  /** Kotlin's `String.trim()`: drops leading and trailing whitespace. */
  function Trim(s: string): (r: string)
    ensures r == [] || (!IsWhitespace(r[0]) && !IsWhitespace(r[|r| - 1]))
    ensures exists a, b :: 0 <= a <= b <= |s| && r == s[a..b] && IsBlank(s[..a]) && IsBlank(s[b..])
  {
    var a := LeadingWhitespace(s);
    var t := s[a..];
    var b := TrailingWhitespaceStart(t);
    assert t[b..] == s[a + b..];
    assert t[..b] == s[a..a + b];
    t[..b]
  }

  /** Trimming leaves a string alone when it neither starts nor ends with whitespace. */
  lemma TrimUnpadded(s: string)
    requires s == [] || (!IsWhitespace(s[0]) && !IsWhitespace(s[|s| - 1]))
    ensures Trim(s) == s
  {
    assert LeadingWhitespace(s) == 0;
    assert s[0..] == s;
    assert TrailingWhitespaceStart(s) == |s|;
  }

  /** `pat` occurs in `s` starting at index `i`. */
  predicate OccursAt(s: string, pat: string, i: int) {
    0 <= i && i + |pat| <= |s| && s[i..i + |pat|] == pat
  }

  /** The first occurrence of `pat` in `s` at or after `from`, as Kotlin's `indexOf(pat, from)` (None for -1). */
  function IndexOfFrom(s: string, pat: string, from: nat): (r: Option<nat>)
    ensures r.Some? ==> from <= r.value && OccursAt(s, pat, r.value)
    ensures r.Some? ==> forall j :: from <= j < r.value ==> !OccursAt(s, pat, j)
    ensures r.None? ==> forall j :: from <= j ==> !OccursAt(s, pat, j)
    decreases |s| - from
  {
    if from + |pat| > |s| then None
    else if s[from..from + |pat|] == pat then Some(from)
    else IndexOfFrom(s, pat, from + 1)
  }

  function IndexOf(s: string, pat: string): Option<nat> {
    IndexOfFrom(s, pat, 0)
  }

  /**
   * Kotlin's `s.substringAfter(delimiter, missingDelimiterValue)`: what follows the FIRST
   * occurrence of `delimiter`, or `missing` when there is none (see `SubstringAfterFirst`).
   */
  function SubstringAfter(s: string, delimiter: string, missing: string): string {
    match IndexOf(s, delimiter)
    case None => missing
    case Some(k) => s[k + |delimiter|..]
  }

  /** What `SubstringAfter` returns, stated without `IndexOf`. */
  lemma SubstringAfterFirst(s: string, delimiter: string, missing: string)
    ensures (forall k :: !OccursAt(s, delimiter, k)) ==> SubstringAfter(s, delimiter, missing) == missing
    ensures (exists k :: OccursAt(s, delimiter, k)) ==>
              var r := SubstringAfter(s, delimiter, missing);
              var k := |s| - |r| - |delimiter|;
              && 0 <= k
              && OccursAt(s, delimiter, k) && s[k + |delimiter|..] == r
              && forall j :: 0 <= j < k ==> !OccursAt(s, delimiter, j)
  {
    match IndexOf(s, delimiter)
    case None =>
    case Some(k) =>
  }

  /** ASCII case folding (the part of Kotlin's `ignoreCase` comparison this model keeps). */
  function FoldCase(c: char): char {
    if 'A' <= c <= 'Z' then (c as int + 32) as char else c
  }

  predicate MatchesAtIgnoringCase(s: string, q: string, i: nat)
    requires i + |q| <= |s|
  {
    forall j :: 0 <= j < |q| ==> FoldCase(s[i + j]) == FoldCase(q[j])
  }

  /** Kotlin's `s.contains(q, ignoreCase = true)`. */
  predicate ContainsIgnoringCase(s: string, q: string) {
    exists i: nat :: i + |q| <= |s| && MatchesAtIgnoringCase(s, q, i)
  }

  /** The empty query is contained in every string. */
  lemma EmptyQueryContained(s: string)
    ensures ContainsIgnoringCase(s, "")
  {
    assert MatchesAtIgnoringCase(s, "", 0);
  }

  /** Containment ignoring case depends only on the folded letters of the query. */
  lemma ContainsSameFolding(s: string, q: string, q2: string)
    requires |q| == |q2|
    requires forall j :: 0 <= j < |q| ==> FoldCase(q[j]) == FoldCase(q2[j])
    ensures ContainsIgnoringCase(s, q) <==> ContainsIgnoringCase(s, q2)
  {
    if ContainsIgnoringCase(s, q) {
      var i: nat :| i + |q| <= |s| && MatchesAtIgnoringCase(s, q, i);
      assert MatchesAtIgnoringCase(s, q2, i);
    }
    if ContainsIgnoringCase(s, q2) {
      var i: nat :| i + |q2| <= |s| && MatchesAtIgnoringCase(s, q2, i);
      assert MatchesAtIgnoringCase(s, q, i);
    }
  }
}
