/** The Python `str` operations the core relies on: `startswith`, `in` and
  * `replace`, which rewrites every non-overlapping occurrence left to right. */
module Strings {

  predicate StartsWith(s: string, prefix: string) {
    |prefix| <= |s| && s[..|prefix|] == prefix
  }

  predicate EndsWith(s: string, suffix: string) {
    |suffix| <= |s| && s[|s| - |suffix|..] == suffix
  }

  /** `p` occurs in `s` starting at index `i`. */
  predicate OccursAt(s: string, p: string, i: int) {
    0 <= i && i + |p| <= |s| && s[i..i + |p|] == p
  }

  /** `p in s` for strings. */
  predicate Contains(s: string, p: string) {
    exists i | 0 <= i <= |s| :: OccursAt(s, p, i)
  }

  /** `s.replace("", rep)`: `rep` before every character and once more at the end. */
  function InsertEverywhere(s: string, rep: string): string
    decreases |s|
  {
    if |s| == 0 then rep else rep + [s[0]] + InsertEverywhere(s[1..], rep)
  }

  /** `s.replace(pat, rep)`. */
  function Replace(s: string, pat: string, rep: string): string
    decreases |s|
  {
    if |pat| == 0 then InsertEverywhere(s, rep)
    else if |s| < |pat| then s
    else if s[..|pat|] == pat then rep + Replace(s[|pat|..], pat, rep)
    else [s[0]] + Replace(s[1..], pat, rep)
  }

  lemma ContainsTail(s: string, p: string)
    requires |s| > 0 && !Contains(s, p)
    ensures !Contains(s[1..], p)
  {
    if Contains(s[1..], p) {
      var i :| 0 <= i <= |s[1..]| && OccursAt(s[1..], p, i);
      assert 0 <= i && i + |p| <= |s| - 1;
      assert s[i + 1..i + 1 + |p|] == s[1..][i..i + |p|];
      assert OccursAt(s, p, i + 1);
    }
  }

  /** A string that does not contain the pattern is left unchanged by `replace`. */
  lemma {:induction false} ReplaceAbsent(s: string, pat: string, rep: string)
    requires |pat| > 0 && !Contains(s, pat)
    ensures Replace(s, pat, rep) == s
    decreases |s|
  {
    if |s| >= |pat| {
      assert !OccursAt(s, pat, 0);
      ContainsTail(s, pat);
      ReplaceAbsent(s[1..], pat, rep);
    }
  }

  /** No character of `s` is `c`. */
  predicate Lacks(s: string, c: char) {
    forall k | 0 <= k < |s| :: s[k] != c
  }

  /** A string without the pattern's first character does not contain the pattern. */
  lemma LacksAbsent(s: string, pat: string)
    requires |pat| > 0 && Lacks(s, pat[0])
    ensures !Contains(s, pat)
  {
    forall i | 0 <= i <= |s| && i + |pat| <= |s|
      ensures !OccursAt(s, pat, i)
    {
      assert s[i..i + |pat|][0] == s[i];
    }
  }

  /** A string whose head is not an occurrence, and whose tail lacks the pattern's
    * first character, does not contain the pattern. */
  lemma SkipHeadAbsent(s: string, pat: string)
    requires |pat| > 0 && |s| > 0 && !OccursAt(s, pat, 0) && Lacks(s[1..], pat[0])
    ensures !Contains(s, pat)
  {
    LacksAbsent(s[1..], pat);
    forall i | 1 <= i <= |s| && i + |pat| <= |s|
      ensures !OccursAt(s, pat, i)
    {
      assert s[1..][i - 1..i - 1 + |pat|] == s[i..i + |pat|];
      assert !OccursAt(s[1..], pat, i - 1);
    }
  }

  /** Removing a pattern that occurs exactly once, at the front. */
  lemma StripHead(pat: string, w: string)
    requires |pat| > 0 && !Contains(w, pat)
    ensures Replace(pat + w, pat, "") == w
  {
    assert (pat + w)[..|pat|] == pat;
    assert (pat + w)[|pat|..] == w;
    ReplaceAbsent(w, pat, "");
  }

  /** Removing a pattern that occurs exactly once, at the end of a string that lacks
    * the pattern's first character. */
  lemma {:induction false} StripTail(name: string, pat: string)
    requires |pat| > 0 && Lacks(name, pat[0])
    ensures Replace(name + pat, pat, "") == name
    decreases |name|
  {
    var s := name + pat;
    if |name| == 0 {
      assert s == pat;
      assert s[..|pat|] == pat && s[|pat|..] == "";
    } else {
      assert s[..|pat|][0] == name[0];
      assert s[1..] == name[1..] + pat;
      StripTail(name[1..], pat);
    }
  }

  /** `replace` with a replacement no longer than the pattern never lengthens the
    * text, and shortens it whenever the pattern occurs and the replacement is shorter. */
  lemma {:induction false} ReplaceShrinks(s: string, pat: string, rep: string)
    requires |pat| > 0 && |rep| <= |pat|
    ensures |Replace(s, pat, rep)| <= |s|
    ensures Contains(s, pat) && |rep| < |pat| ==> |Replace(s, pat, rep)| < |s|
    decreases |s|
  {
    if |s| < |pat| {
    } else if s[..|pat|] == pat {
      ReplaceShrinks(s[|pat|..], pat, rep);
    } else {
      ReplaceShrinks(s[1..], pat, rep);
      if Contains(s, pat) {
        var i :| 0 <= i <= |s| && OccursAt(s, pat, i);
        assert i > 0;
        assert s[1..][i - 1..i - 1 + |pat|] == s[i..i + |pat|];
        assert OccursAt(s[1..], pat, i - 1);
      }
    }
  }
}
