/** The plain-text clean-ups of `UtilsLib/html_parser.py`: `remove_extra_line` and
  * `remove_starting_and_ending_line`. */
module HtmlParser {
  import opened Json
  import opened Strings

  const NewLineMark := "#new_line#"

  /** remove_extra_line's replacements, (pattern, replacement), in the order they run:
    * an empty paragraph becomes NewLineMark, taking the newlines around it first, and
    * the newline after a list's end or before an item's end goes. */
  const Rewrites: seq<(string, string)> := [
    ("\n<p><br></p>\n", NewLineMark),
    ("<p><br></p>\n", NewLineMark),
    ("<p><br></p>", NewLineMark),
    ("</ul>\n", "</ul>"),
    ("</ol>\n", "</ol>"),
    ("<br>\n</li>", "</li>")]

  /** Every replacement is shorter than its pattern. */
  lemma RewritesShorten(j: nat)
    requires j < |Rewrites|
    ensures 0 < |Rewrites[j].1| < |Rewrites[j].0|
  {
  }

  /** The text after the first `n` replacements. */
  function RewriteUpTo(text: string, n: nat): string
    requires n <= |Rewrites|
  {
    if n == 0 then text else Replace(RewriteUpTo(text, n - 1), Rewrites[n - 1].0, Rewrites[n - 1].1)
  }

  /** remove_extra_line. */
  function RemoveExtraLine(text: string): string {
    RewriteUpTo(text, |Rewrites|)
  }

  /** The text holds none of the first `n` patterns. */
  predicate CleanUpTo(text: string, n: nat)
    requires n <= |Rewrites|
  {
    forall j | 0 <= j < n :: !Contains(text, Rewrites[j].0)
  }

  /** The replacements never lengthen the text; they leave a text without any pattern
    * as it is, and shorten one that holds some pattern. */
  lemma {:induction false} RewriteUpToShrinks(text: string, n: nat)
    requires n <= |Rewrites|
    ensures |RewriteUpTo(text, n)| <= |text|
    ensures CleanUpTo(text, n) ==> RewriteUpTo(text, n) == text
    ensures !CleanUpTo(text, n) ==> |RewriteUpTo(text, n)| < |text|
  {
    if n > 0 {
      RewriteUpToShrinks(text, n - 1);
      var u := RewriteUpTo(text, n - 1);
      var (pat, rep) := Rewrites[n - 1];
      RewritesShorten(n - 1);
      ReplaceShrinks(u, pat, rep);
      if CleanUpTo(text, n - 1) {
        assert u == text;
        if !Contains(text, pat) {
          ReplaceAbsent(text, pat, rep);
        }
      } else {
        assert !CleanUpTo(text, n) by {
          var j :| 0 <= j < n - 1 && Contains(text, Rewrites[j].0);
        }
      }
    }
  }

  /** remove_extra_line changes a text exactly when the text holds one of its patterns. */
  lemma RemoveExtraLineUnchanged(text: string)
    ensures RemoveExtraLine(text) == text <==> CleanUpTo(text, |Rewrites|)
  {
    RewriteUpToShrinks(text, |Rewrites|);
  }

  /** The first replacement takes an empty paragraph together with the newlines on both
    * sides; the later ones leave the mark alone. */
  lemma EmptyParagraphTakesNewlines()
    ensures RemoveExtraLine("\n<p><br></p>\n") == NewLineMark
  {
    var p := "\n<p><br></p>\n";
    assert p[..|p|][|p|..] == "";
    assert Replace(p, p, NewLineMark) == NewLineMark + Replace("", p, NewLineMark);
    assert RewriteUpTo(p, 1) == NewLineMark;
    assert Lacks(NewLineMark, '<');
    forall j | 1 <= j < |Rewrites|
      ensures Replace(NewLineMark, Rewrites[j].0, Rewrites[j].1) == NewLineMark
    {
      assert Rewrites[j].0[0] == '<';
      LacksAbsent(NewLineMark, Rewrites[j].0);
      ReplaceAbsent(NewLineMark, Rewrites[j].0, Rewrites[j].1);
    }
    assert RewriteUpTo(p, 2) == NewLineMark;
    assert RewriteUpTo(p, 3) == NewLineMark;
    assert RewriteUpTo(p, 4) == NewLineMark;
    assert RewriteUpTo(p, 5) == NewLineMark;
  }

  /** remove_extra_line never lengthens a text. */
  lemma RemoveExtraLineShortens(text: string)
    ensures |RemoveExtraLine(text)| <= |text|
  {
    RewriteUpToShrinks(text, |Rewrites|);
  }

  /** remove_starting_and_ending_line: a non-empty string loses one leading and then one
    * trailing newline, where it has them; any other value is returned as it is. */
  function RemoveStartingAndEndingLine(v: Json): Json {
    if v.JStr? && |v.s| > 0 then
      var head := if StartsWith(v.s, "\n") then v.s[1..] else v.s;
      JStr(if EndsWith(head, "\n") then head[..|head| - 1] else head)
    else v
  }

  /** A value that is not a non-empty string is untouched. */
  lemma StripKeepsOthers(v: Json)
    requires !v.JStr? || v.s == ""
    ensures RemoveStartingAndEndingLine(v) == v
  {
  }

  /** `s` without its first `a` and its last `b` characters. */
  function Middle(s: string, a: nat, b: nat): string
    requires a + b <= |s|
  {
    s[a..|s| - b]
  }

  /** A string keeps its middle: at most one character goes from each end, a character
    * that goes is a newline, and the leading one goes exactly when it is a newline. */
  lemma StripEdges(s: string)
    requires |s| > 0
    ensures RemoveStartingAndEndingLine(JStr(s)).JStr?
    ensures exists a, b | 0 <= a <= 1 && 0 <= b <= 1 && a + b <= |s| ::
      RemoveStartingAndEndingLine(JStr(s)).s == Middle(s, a, b) &&
      (a == 1 <==> s[0] == '\n') && (b == 1 ==> s[|s| - 1] == '\n')
  {
    var a := if s[0] == '\n' then 1 else 0;
    assert StartsWith(s, "\n") <==> a == 1;
    var head := s[a..];
    var b := if |head| > 0 && head[|head| - 1] == '\n' then 1 else 0;
    assert EndsWith(head, "\n") <==> b == 1;
    assert RemoveStartingAndEndingLine(JStr(s)).s == Middle(s, a, b);
  }

  /** A text wrapped in one newline on each side comes back unwrapped. */
  lemma StripWrapped(s: string)
    ensures RemoveStartingAndEndingLine(JStr("\n" + s + "\n")) == JStr(s)
  {
    var w := "\n" + s + "\n";
    assert StartsWith(w, "\n");
    var head := w[1..];
    assert head == s + "\n";
    assert EndsWith(head, "\n");
    assert head[..|head| - 1] == s;
  }

  /** A string that neither starts nor ends with a newline is untouched. */
  lemma StripNoEdges(s: string)
    requires |s| > 0 && s[0] != '\n' && s[|s| - 1] != '\n'
    ensures RemoveStartingAndEndingLine(JStr(s)) == JStr(s)
  {
    assert !StartsWith(s, "\n");
    assert !EndsWith(s, "\n");
  }
}
