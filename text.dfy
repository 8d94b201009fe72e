/**
 * Ordinal, case-insensitive string comparison as used by the C# code
 * (StringComparison.OrdinalIgnoreCase, ToLowerInvariant), restricted to the
 * ASCII letters.
 */
module Text {

  function ToLowerChar(c: char): char {
    if 'A' <= c <= 'Z' then (c as int + 32) as char else c
  }

  /** Lower-cases every ASCII letter and leaves every other character alone. */
  function ToLower(s: string): (r: string)
    ensures |r| == |s|
    ensures forall i :: 0 <= i < |s| ==> r[i] == ToLowerChar(s[i])
    decreases |s|
  {
    if s == [] then [] else [ToLowerChar(s[0])] + ToLower(s[1..])
  }

  /** String.Equals(a, b, StringComparison.OrdinalIgnoreCase). */
  predicate EqualsIgnoreCase(a: string, b: string) {
    ToLower(a) == ToLower(b)
  }

  /** String.Contains(pattern, StringComparison.OrdinalIgnoreCase): some window of `s` matches. */
  predicate ContainsIgnoreCase(s: string, pattern: string)
    decreases |s|
  {
    if |pattern| > |s| then false
    else EqualsIgnoreCase(s[..|pattern|], pattern) || (|s| > 0 && ContainsIgnoreCase(s[1..], pattern))
  }

  /** `pattern` matches the window of `s` that starts at `i`, ignoring case. */
  predicate MatchesAt(s: string, pattern: string, i: nat) {
    i + |pattern| <= |s| && EqualsIgnoreCase(s[i..i + |pattern|], pattern)
  }

  /** ContainsIgnoreCase holds exactly when some window of `s` equals `pattern` ignoring case. */
  lemma {:induction false} ContainsIgnoreCaseWindow(s: string, pattern: string)
    ensures ContainsIgnoreCase(s, pattern) <==> exists i: nat :: MatchesAt(s, pattern, i)
    decreases |s|
  {
    if |pattern| > |s| {
    } else if EqualsIgnoreCase(s[..|pattern|], pattern) {
      assert s[0..0 + |pattern|] == s[..|pattern|];
      assert MatchesAt(s, pattern, 0);
    } else {
      ContainsIgnoreCaseWindow(s[1..], pattern);
      if ContainsIgnoreCase(s[1..], pattern) {
        var i: nat :| MatchesAt(s[1..], pattern, i);
        assert s[1..][i..i + |pattern|] == s[i + 1..i + 1 + |pattern|];
        assert MatchesAt(s, pattern, i + 1);
      } else {
        forall i: nat | MatchesAt(s, pattern, i)
          ensures false
        {
          if i > 0 {
            assert s[1..][i - 1..i - 1 + |pattern|] == s[i..i + |pattern|];
            assert MatchesAt(s[1..], pattern, i - 1);
          }
        }
      }
    }
  }
}
