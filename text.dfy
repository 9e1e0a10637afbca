/** Substring search as used by rDock (`std::string::find(pat) != npos`). */
module Text {

  /** `pat` occurs in `s` at offset `i`. */
  predicate OccursAt(s: string, pat: string, i: nat)
  {
    i + |pat| <= |s| && s[i..i + |pat|] == pat
  }

  /** True exactly when `pat` occurs somewhere in `s` (case-sensitive, exact characters). */
  function Contains(s: string, pat: string): (b: bool)
    ensures b <==> exists i: nat :: OccursAt(s, pat, i)
    decreases |s|
  {
    if |s| < |pat| then
      false
    else if s[..|pat|] == pat then
      assert OccursAt(s, pat, 0);
      true
    else
      OccursLater(s, pat);
      Contains(s[1..], pat)
  }

  /** An occurrence not at the front of `s` is an occurrence in `s[1..]`, and conversely. */
  lemma OccursLater(s: string, pat: string)
    requires s != [] && !OccursAt(s, pat, 0)
    ensures (exists i: nat :: OccursAt(s, pat, i)) <==> (exists j: nat :: OccursAt(s[1..], pat, j))
  {
    forall i: nat | OccursAt(s, pat, i)
      ensures OccursAt(s[1..], pat, i - 1)
    {
      assert s[1..][i - 1..i - 1 + |pat|] == s[i..i + |pat|];
    }
    forall j: nat | OccursAt(s[1..], pat, j)
      ensures OccursAt(s, pat, j + 1)
    {
      assert s[1..][j..j + |pat|] == s[j + 1..j + 1 + |pat|];
    }
  }

  /** Whatever surrounds it, a string built around `pat` contains `pat`. */
  lemma ContainsInfix(a: string, pat: string, b: string)
    ensures Contains(a + pat + b, pat)
  {
    var s := a + pat + b;
    assert s[|a|..|a| + |pat|] == pat;
    assert OccursAt(s, pat, |a|);
  }

  /** A pattern whose first character never occurs in `s` is not found in `s`. */
  lemma NotContainsWithoutFirst(s: string, pat: string)
    requires pat != []
    requires forall k :: 0 <= k < |s| ==> s[k] != pat[0]
    ensures !Contains(s, pat)
  {
    forall i: nat | i + |pat| <= |s|
      ensures !OccursAt(s, pat, i)
    {
      assert s[i..i + |pat|][0] == s[i];
    }
  }
}
