/** Python's `str.replace`, which the Flask server uses to derive keys and messages from feature names. */
module PyStrings {

  /** `pat` occurs in `s` starting at position `i`. */
  predicate OccursAt(s: string, pat: string, i: nat)
  {
    i + |pat| <= |s| && s[i..i + |pat|] == pat
  }

  /** `pat` occurs in `s` at some position. */
  predicate Contains(s: string, pat: string)
  {
    exists i: nat :: i <= |s| && OccursAt(s, pat, i)
  }

  /**
   * `s.replace(pat, rep)` for a non-empty `pat`: the occurrences of `pat`
   * are found from left to right without overlapping and each is replaced.
   * Replacing the pattern by itself changes nothing, and a replacement of the
   * same length keeps the length.
   */
  function Replace(s: string, pat: string, rep: string): (r: string)
    requires |pat| > 0
    ensures rep == pat ==> r == s
    ensures |rep| == |pat| ==> |r| == |s|
    decreases |s|
  {
    if |s| < |pat| then s
    else if s[..|pat|] == pat then rep + Replace(s[|pat|..], pat, rep)
    else [s[0]] + Replace(s[1..], pat, rep)
  }

  /** Replacing one character by another keeps the length and changes exactly the matching positions. */
  lemma {:induction false} ReplaceChar(s: string, c: char, d: char)
    ensures |Replace(s, [c], [d])| == |s|
    ensures forall i :: 0 <= i < |s| ==> Replace(s, [c], [d])[i] == if s[i] == c then d else s[i]
    decreases |s|
  {
    if |s| > 0 {
      ReplaceChar(s[1..], c, d);
      var rest := Replace(s[1..], [c], [d]);
      assert Replace(s, [c], [d]) == [if s[0] == c then d else s[0]] + rest by {
        assert s[..1] == [s[0]];
      }
    }
  }

  /** Without an occurrence of `pat`, replacing it changes nothing. */
  lemma {:induction false} ReplaceWithoutOccurrence(s: string, pat: string, rep: string)
    requires |pat| > 0 && !Contains(s, pat)
    ensures Replace(s, pat, rep) == s
    decreases |s|
  {
    if |s| >= |pat| {
      assert !OccursAt(s, pat, 0);
      assert s[..|pat|] == s[0..0 + |pat|];
      assert !Contains(s[1..], pat) by {
        forall i: nat | i + |pat| <= |s[1..]|
          ensures !OccursAt(s[1..], pat, i)
        {
          assert s[1..][i..i + |pat|] == s[i + 1..i + 1 + |pat|];
          assert !OccursAt(s, pat, i + 1);
        }
      }
      ReplaceWithoutOccurrence(s[1..], pat, rep);
      assert s == [s[0]] + s[1..];
    }
  }

  /** A string made of `pat` and then a string without `pat` loses just that prefix. */
  lemma ReplaceLeading(pat: string, t: string)
    requires |pat| > 0 && !Contains(t, pat)
    ensures Replace(pat + t, pat, "") == t
  {
    assert (pat + t)[..|pat|] == pat;
    assert (pat + t)[|pat|..] == t;
    ReplaceWithoutOccurrence(t, pat, "");
  }

  /**
   * A cheap sufficient condition for the absence of `pat`: no position holds
   * the first character of `pat` while the position |pat| - 1 further on holds
   * its last one.
   */
  predicate NoFirstLastMatch(s: string, pat: string)
    requires |pat| > 0
  {
    forall i :: 0 <= i < |s| && s[i] == pat[0] && i + |pat| <= |s| ==> s[i + |pat| - 1] != pat[|pat| - 1]
  }

  lemma NoFirstLastMatchIsAbsence(s: string, pat: string)
    requires |pat| > 0 && NoFirstLastMatch(s, pat)
    ensures !Contains(s, pat)
  {
    forall i: nat | i + |pat| <= |s|
      ensures !OccursAt(s, pat, i)
    {
      if s[i] == pat[0] {
        assert s[i..i + |pat|][|pat| - 1] != pat[|pat| - 1];
      } else {
        assert s[i..i + |pat|][0] != pat[0];
      }
    }
  }
}
