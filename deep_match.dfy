/**
 * The "deep" path condition: the query path used as a regular expression,
 * unanchored. For the characters node paths are made of (letters, digits,
 * `-`, `/` and `.`), the only metacharacter is `.`, which matches any one
 * character; every other character matches itself.
 */
module DeepMatch {

  /** One pattern character against one path character. */
  predicate CharMatches(pc: char, c: char)
  {
    pc == '.' || pc == c
  }

  /** The pattern matches the characters of `s` starting at index `i`. */
  predicate OccursAt(pattern: string, s: string, i: nat)
  {
    i + |pattern| <= |s| && forall k :: 0 <= k < |pattern| ==> CharMatches(pattern[k], s[i + k])
  }

  /** Scans `s` from index `from` onward for a place where the pattern matches. */
  function SearchFrom(pattern: string, s: string, from: nat): (b: bool)
    requires from <= |s|
    decreases |s| - from
    ensures b <==> exists i :: from <= i && OccursAt(pattern, s, i)
  {
    if from + |pattern| > |s| then false
    else OccursAt(pattern, s, from) || SearchFrom(pattern, s, from + 1)
  }

  /** Regular-expression test: the pattern matches somewhere in `s`. */
  function RegexTest(pattern: string, s: string): (b: bool)
    ensures b <==> exists i :: OccursAt(pattern, s, i)
  {
    SearchFrom(pattern, s, 0)
  }

  /** A path that begins with the pattern, character for character, matches it. */
  lemma PrefixMatches(pattern: string, s: string)
    requires pattern <= s
    ensures RegexTest(pattern, s)
  {
    assert OccursAt(pattern, s, 0);
  }

  /** Every path matches itself. */
  lemma SelfMatches(path: string)
    ensures RegexTest(path, path)
  {
    PrefixMatches(path, path);
  }

  /** The match is unanchored: the pattern may sit anywhere in the path. */
  lemma InfixMatches(before: string, pattern: string, after: string)
    ensures RegexTest(pattern, before + pattern + after)
  {
    var s := before + pattern + after;
    assert forall k :: 0 <= k < |pattern| ==> s[|before| + k] == pattern[k];
    assert OccursAt(pattern, s, |before|);
  }

  /** A `.` in the pattern matches any character, so "a.b" also matches "aXb". */
  lemma DotIsWildcard()
    ensures RegexTest("a.b", "aXb")
  {
    assert OccursAt("a.b", "aXb", 0);
  }
}
