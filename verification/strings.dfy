/**
 * The few Kotlin standard-library string operations the view-models rely on:
 * `isBlank()`, `contains(other, ignoreCase = true)` and the rendering of a
 * possibly-null exception message inside a string template.
 * Whitespace and case folding are restricted to ASCII.
 */
module Strings {
  import opened Wrappers

  /** `Char.isWhitespace()` on ASCII: tab, line feed, vertical tab, form feed,
      carriage return, the four separators U+001C..U+001F and space. */
  predicate IsWhitespace(c: char) {
    9 <= c as int <= 13 || 28 <= c as int <= 32
  }

  /** `String.isBlank()`: empty, or whitespace only. */
  function IsBlank(s: string): (r: bool)
    ensures r <==> forall i :: 0 <= i < |s| ==> IsWhitespace(s[i])
  {
    if |s| == 0 then true else IsWhitespace(s[0]) && IsBlank(s[1..])
  }

  /** ASCII lower-casing; every other character is its own fold. */
  function Lower(c: char): char {
    if 'A' <= c <= 'Z' then (c as int + 32) as char else c
  }

  /** `pat[j..]` occurs in `s` at offset `i + j`, comparing one character at a time
      case-insensitively (Kotlin's `regionMatches` with `ignoreCase = true`). */
  predicate FoldsAt(s: string, pat: string, i: nat, j: nat)
    requires i + |pat| <= |s| && j <= |pat|
    decreases |pat| - j
  {
    j == |pat| || (Lower(s[i + j]) == Lower(pat[j]) && FoldsAt(s, pat, i, j + 1))
  }

  /** `pat` occurs in `s` at offset `i`, ignoring case. */
  predicate MatchesAt(s: string, pat: string, i: nat) {
    i + |pat| <= |s| && FoldsAt(s, pat, i, 0)
  }

  lemma {:induction false} FoldsAtAll(s: string, pat: string, i: nat, j: nat)
    requires i + |pat| <= |s| && j <= |pat|
    ensures FoldsAt(s, pat, i, j) <==> forall k :: j <= k < |pat| ==> Lower(s[i + k]) == Lower(pat[k])
    decreases |pat| - j
  {
    if j < |pat| {
      FoldsAtAll(s, pat, i, j + 1);
    }
  }

  /** Matching at an offset means every character of `pat` folds to the one it lies over. */
  lemma MatchesAtMeansFolded(s: string, pat: string, i: nat)
    ensures MatchesAt(s, pat, i)
            <==> i + |pat| <= |s| && forall k :: 0 <= k < |pat| ==> Lower(s[i + k]) == Lower(pat[k])
  {
    if i + |pat| <= |s| {
      FoldsAtAll(s, pat, i, 0);
    }
  }

  /** The search of `indexOf(pat, ignoreCase = true)` from offset `i` onwards. */
  function ContainsFrom(s: string, pat: string, i: nat): (r: bool)
    ensures r <==> exists k: nat :: i <= k && MatchesAt(s, pat, k)
    decreases |s| - i
  {
    if i + |pat| > |s| then false
    else MatchesAt(s, pat, i) || ContainsFrom(s, pat, i + 1)
  }

  /** `s.contains(pat, ignoreCase = true)`: some offset of `s` matches `pat`. */
  function ContainsIgnoreCase(s: string, pat: string): (r: bool)
    ensures r <==> exists k: nat :: MatchesAt(s, pat, k)
  {
    ContainsFrom(s, pat, 0)
  }

  /** A string template's `${e.message}`: a null message is written as "null". */
  function Rendered(message: Option<string>): (r: string)
    ensures message.Some? ==> r == message.value
    ensures r == "null" <==> message == None || message == Some("null")
  {
    match message
    case Some(m) => m
    case None => "null"
  }

  /** Rendering loses nothing except the difference between a null message and the message "null". */
  lemma RenderedDeterminesMessage(m1: Option<string>, m2: Option<string>)
    requires Rendered(m1) == Rendered(m2)
    ensures m1 == m2 || {m1, m2} == {None, Some("null")}
  {
  }
}
