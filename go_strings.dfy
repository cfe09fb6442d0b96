/**
  The part of Go's `strings` package that the static-site and configuration
  code relies on, over `string` (a sequence of `char`).
 */
module GoStrings {

  /** strings.HasPrefix */
  predicate HasPrefix(s: string, prefix: string) {
    |prefix| <= |s| && s[..|prefix|] == prefix
  }

  /** strings.HasSuffix */
  predicate HasSuffix(s: string, suffix: string) {
    |suffix| <= |s| && s[|s| - |suffix|..] == suffix
  }

  /** strings.TrimPrefix: removes one leading `prefix` if present. */
  function TrimPrefix(s: string, prefix: string): (r: string)
    ensures HasPrefix(s, prefix) ==> prefix + r == s
    ensures !HasPrefix(s, prefix) ==> r == s
  {
    if HasPrefix(s, prefix) then s[|prefix|..] else s
  }

  /** strings.TrimSuffix: removes one trailing `suffix` if present. */
  function TrimSuffix(s: string, suffix: string): (r: string)
    ensures HasSuffix(s, suffix) ==> r + suffix == s
    ensures !HasSuffix(s, suffix) ==> r == s
  {
    if HasSuffix(s, suffix) then s[..|s| - |suffix|] else s
  }

  /** `pat` occurs in `s` starting at index `i`. */
  predicate OccursAt(s: string, pat: string, i: nat) {
    i + |pat| <= |s| && s[i..i + |pat|] == pat
  }

  /** strings.Contains */
  ghost predicate Contains(s: string, pat: string) {
    exists i: nat :: OccursAt(s, pat, i)
  }

  /**
    strings.Index: the first index at which `pat` occurs in `s`, or -1.
    An empty `pat` occurs at index 0.
   */
  function Index(s: string, pat: string): (r: int)
    ensures r == -1 || (0 <= r && OccursAt(s, pat, r))
    ensures r == -1 <==> !Contains(s, pat)
    ensures r >= 0 ==> forall j: nat :: j < r ==> !OccursAt(s, pat, j)
    decreases |s|
  {
    if OccursAt(s, pat, 0) then 0
    else if |s| == 0 then -1
    else
      var k := Index(s[1..], pat);
      ShiftOccurrence(s, pat);
      if k == -1 then -1 else k + 1
  }

  /** An occurrence in `s[1..]` is an occurrence in `s`, one index later. */
  lemma ShiftOccurrence(s: string, pat: string)
    requires |s| > 0
    ensures forall j: nat {:trigger OccursAt(s[1..], pat, j)} :: OccursAt(s[1..], pat, j) <==> OccursAt(s, pat, j + 1)
    ensures forall j: nat {:trigger OccursAt(s, pat, j)} :: 0 < j ==> (OccursAt(s, pat, j) <==> OccursAt(s[1..], pat, j - 1))
  {
    forall j: nat ensures OccursAt(s[1..], pat, j) <==> OccursAt(s, pat, j + 1) {
      if j + |pat| <= |s| - 1 {
        assert s[1..][j..j + |pat|] == s[j + 1..j + 1 + |pat|];
      }
    }
    forall j: nat | 0 < j ensures OccursAt(s, pat, j) <==> OccursAt(s[1..], pat, j - 1) {
      assert OccursAt(s[1..], pat, j - 1) <==> OccursAt(s, pat, (j - 1) + 1);
    }
  }

  /**
    strings.Replace(s, pattern, replacement, 1): the first occurrence of `pattern` (if any)
    is replaced by `replacement`; the text before and after it is kept.
   */
  function ReplaceFirst(s: string, pattern: string, replacement: string): (r: string)
    ensures !Contains(s, pattern) ==> r == s
    ensures Contains(s, pattern) ==>
      var i := Index(s, pattern);
      r == s[..i] + replacement + s[i + |pattern|..]
  {
    var i := Index(s, pattern);
    if i == -1 then s else s[..i] + replacement + s[i + |pattern|..]
  }

  /**
    strings.ReplaceAll for a non-empty `pattern`: every non-overlapping
    occurrence, scanning left to right, is replaced by `replacement`.
   */
  function ReplaceAll(s: string, pattern: string, replacement: string): (r: string)
    requires pattern != []
    ensures !Contains(s, pattern) ==> r == s
    decreases |s|
  {
    var i := Index(s, pattern);
    if i == -1 then s else s[..i] + replacement + ReplaceAll(s[i + |pattern|..], pattern, replacement)
  }

  /** Only the first occurrence is replaced: a later, non-overlapping occurrence survives. */
  lemma ReplaceFirstKeepsLaterOccurrences(s: string, pattern: string, replacement: string, j: nat)
    requires OccursAt(s, pattern, j)
    requires Index(s, pattern) + |pattern| <= j
    ensures OccursAt(ReplaceFirst(s, pattern, replacement), pattern, j - |pattern| + |replacement|)
  {
    var i := Index(s, pattern);
    var r := ReplaceFirst(s, pattern, replacement);
    var k := j - |pattern| + |replacement|;
    assert r == s[..i] + replacement + s[i + |pattern|..];
    assert r[i + |replacement|..] == s[i + |pattern|..];
    assert r[k..k + |pattern|] == s[i + |pattern|..][j - i - |pattern|..j - i];
  }

  /** Replacing a pattern by itself leaves the text unchanged. */
  lemma {:induction false} ReplaceAllIdentity(s: string, pattern: string)
    requires pattern != []
    ensures ReplaceAll(s, pattern, pattern) == s
    decreases |s|
  {
    var i := Index(s, pattern);
    if i != -1 {
      ReplaceAllIdentity(s[i + |pattern|..], pattern);
      assert s[i..i + |pattern|] == pattern;
      assert s == s[..i] + s[i..i + |pattern|] + s[i + |pattern|..];
    }
  }

  /** A text without the pattern's first character has no occurrence of the pattern. */
  lemma AbsentWithoutFirstChar(s: string, pattern: string)
    requires pattern != [] && pattern[0] !in s
    ensures !Contains(s, pattern)
  {
    forall i: nat | i + |pattern| <= |s| ensures !OccursAt(s, pattern, i) {
      assert s[i..i + |pattern|][0] == s[i];
    }
  }

  /**
    A single occurrence, with the pattern's first character appearing
    nowhere else, is the one and only thing ReplaceAll rewrites.
   */
  lemma ReplaceAllSingle(a: string, pattern: string, b: string, replacement: string)
    requires pattern != []
    requires pattern[0] !in a && pattern[0] !in b
    ensures ReplaceAll(a + pattern + b, pattern, replacement) == a + replacement + b
  {
    var s := a + pattern + b;
    assert OccursAt(s, pattern, |a|) by {
      assert s[|a|..|a| + |pattern|] == pattern;
    }
    forall j: nat | j < |a| ensures !OccursAt(s, pattern, j) {
      assert s[j] == a[j];
    }
    assert Index(s, pattern) == |a|;
    assert s[..|a|] == a;
    assert s[|a| + |pattern|..] == b;
    AbsentWithoutFirstChar(b, pattern);
  }

  /** ASCII letter lowering (unicode.ToLower restricted to 'A'..'Z'). */
  function LowerChar(c: char): (d: char)
    ensures 'A' <= c <= 'Z' ==> 'a' <= d <= 'z' && d as int - c as int == 'a' as int - 'A' as int
    ensures !('A' <= c <= 'Z') ==> d == c
  {
    if 'A' <= c <= 'Z' then (c as int - 'A' as int + 'a' as int) as char else c
  }

  /** strings.ToLower over the ASCII letters. */
  function ToLower(s: string): (r: string)
    ensures |r| == |s|
    ensures forall i :: 0 <= i < |s| ==> r[i] == LowerChar(s[i])
  {
    seq(|s|, i requires 0 <= i < |s| => LowerChar(s[i]))
  }

  /**
    strings.Split(s, "\n")[0]: the text before the first newline, or the
    whole of `s` when it has none.
   */
  function FirstLine(s: string): (r: string)
    ensures HasPrefix(s, r)
    ensures '\n' !in r
    ensures r == s || s[|r|] == '\n'
  {
    if s == [] then []
    else if s[0] == '\n' then []
    else [s[0]] + FirstLine(s[1..])
  }
}
