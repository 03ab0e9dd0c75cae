/** The .NET string operations the generators rely on, over `seq<char>`. */
module Strings {

  /** `s.StartsWith(prefix)` (ordinal comparison). */
  predicate StartsWith(s: string, prefix: string) {
    |prefix| <= |s| && s[..|prefix|] == prefix
  }

  /** `s.EndsWith(suffix)` (ordinal comparison). */
  predicate EndsWith(s: string, suffix: string) {
    |suffix| <= |s| && s[|s| - |suffix|..] == suffix
  }

  /** `s.Contains(sub)`: `sub` occurs at some position of `s`. */
  predicate Contains(s: string, sub: string)
    decreases |s|
  {
    StartsWith(s, sub) || (s != [] && Contains(s[1..], sub))
  }

  /** `sub` occurs in `s` starting at index `i`. */
  predicate OccursAt(s: string, sub: string, i: int) {
    0 <= i <= |s| - |sub| && s[i..i + |sub|] == sub
  }

  /** `Contains` holds exactly when `sub` occurs at some index of `s`. */
  lemma {:induction false} ContainsAt(s: string, sub: string)
    ensures Contains(s, sub) <==> exists i :: OccursAt(s, sub, i)
    decreases |s|
  {
    if exists i :: OccursAt(s, sub, i) {
      var i :| OccursAt(s, sub, i);
      if i > 0 {
        assert OccursAt(s[1..], sub, i - 1) by {
          assert s[1..][i - 1..i - 1 + |sub|] == s[i..i + |sub|];
        }
        ContainsAt(s[1..], sub);
      } else {
        assert StartsWith(s, sub);
      }
    }
    if s != [] && Contains(s[1..], sub) {
      ContainsAt(s[1..], sub);
      var i :| OccursAt(s[1..], sub, i);
      assert OccursAt(s, sub, i + 1) by {
        assert s[i + 1..i + 1 + |sub|] == s[1..][i..i + |sub|];
      }
    }
    if StartsWith(s, sub) {
      assert OccursAt(s, sub, 0);
    }
  }

  /** `s.Replace(pattern, replacement)`: every non-overlapping occurrence of `pattern`, scanning from the left, replaced by `replacement`. */
  function ReplaceAll(s: string, pattern: string, replacement: string): (r: string)
    requires pattern != []
    decreases |s|
  {
    if |s| < |pattern| then s
    else if StartsWith(s, pattern) then replacement + ReplaceAll(s[|pattern|..], pattern, replacement)
    else [s[0]] + ReplaceAll(s[1..], pattern, replacement)
  }

  /** A string without an occurrence of `pattern` is left as it is. */
  lemma {:induction false} ReplaceAbsent(s: string, pattern: string, replacement: string)
    requires pattern != [] && !Contains(s, pattern)
    ensures ReplaceAll(s, pattern, replacement) == s
    decreases |s|
  {
    if |s| >= |pattern| {
      assert !StartsWith(s, pattern);
      ReplaceAbsent(s[1..], pattern, replacement);
      assert s == [s[0]] + s[1..];
    }
  }

  /** A pattern at the end of a string none of whose characters starts the pattern is the only one replaced. */
  lemma {:induction false} ReplaceTrailing(s: string, pattern: string, replacement: string)
    requires pattern != [] && forall i :: 0 <= i < |s| ==> s[i] != pattern[0]
    ensures ReplaceAll(s + pattern, pattern, replacement) == s + replacement
    decreases |s|
  {
    var t := s + pattern;
    if s == [] {
      assert t == pattern && t[|pattern|..] == [];
      assert StartsWith(t, pattern);
    } else {
      assert t[..|pattern|][0] == s[0];
      assert t[1..] == s[1..] + pattern;
      ReplaceTrailing(s[1..], pattern, replacement);
      assert [s[0]] + (s[1..] + replacement) == s + replacement;
    }
  }

  /** `s.Split('.').Last()`: the text after the last dot, or all of `s` when it has none. */
  function LastSegment(s: string): (r: string)
    ensures '.' !in r
    ensures |r| <= |s|
  {
    if s == [] then []
    else if s[|s| - 1] == '.' then []
    else LastSegment(s[..|s| - 1]) + [s[|s| - 1]]
  }
}
