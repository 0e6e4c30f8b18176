/** Paragraph splitting as `content.split(/\n\n+/)` performs it. */
module Paragraphs {
  import opened Options
  import opened Text

  /** Where the first run of two or more newlines starts and ends, as the
      regular expression `/\n\n+/` matches it. */
  function RunEnd(s: string, j: nat): (e: nat)
    requires j <= |s|
    ensures j <= e <= |s|
    ensures forall k :: j <= k < e ==> s[k] == '\n'
    ensures e == |s| || s[e] != '\n'
    decreases |s| - j
  {
    if j < |s| && s[j] == '\n' then RunEnd(s, j + 1) else j
  }

  /** `s.split(/\n\n+/)`: the paragraphs of `s`. */
  function Paragraphs(s: string): (ps: seq<string>)
    ensures |ps| >= 1
    decreases |s|
  {
    match IndexOf(s, "\n\n")
    case None => [s]
    case Some(i) =>
      var e := RunEnd(s, i + 2);
      [s[..i]] + Paragraphs(s[e..])
  }

  /** `r` is the suffix of `s` after its last blank-line separator: it
      holds no blank line, and when it is not all of `s` it is preceded by
      a separator and does not itself begin with a newline. */
  predicate IsLastParagraph(s: string, r: string) {
    && |r| <= |s| && r == s[|s| - |r|..]
    && !Contains(r, "\n\n")
    && (r == s <==> !Contains(s, "\n\n"))
    && (r != s ==> EndsWith(s[..|s| - |r|], "\n\n") && (r == [] || r[0] != '\n'))
  }

  /** The text after the last blank-line separator, found by skipping
      separators from the left as the splitting does. */
  function AfterSeparators(s: string): string
    decreases |s|
  {
    match IndexOf(s, "\n\n")
    case None => s
    case Some(i) => AfterSeparators(s[RunEnd(s, i + 2)..])
  }

  lemma {:induction false} AfterSeparatorsIsLast(s: string)
    ensures IsLastParagraph(s, AfterSeparators(s))
    decreases |s|
  {
    match IndexOf(s, "\n\n")
    case None =>
      assert s[|s| - |s|..] == s;
    case Some(i) =>
      var e := RunEnd(s, i + 2);
      AfterSeparatorsIsLast(s[e..]);
      LastParagraphStep(s, i, e, AfterSeparators(s[e..]));
  }

  /** The last entry of `s.split(/\n\n+/)`. */
  function LastParagraph(s: string): string {
    var ps := Paragraphs(s);
    ps[|ps| - 1]
  }

  /** The last paragraph of the split is the suffix after the last
      blank-line separator. */
  lemma {:induction false} LastParagraphSkipsSeparators(s: string)
    ensures LastParagraph(s) == AfterSeparators(s)
    decreases |s|
  {
    match IndexOf(s, "\n\n")
    case None =>
      assert Paragraphs(s) == [s];
      assert AfterSeparators(s) == s;
    case Some(i) =>
      var e := RunEnd(s, i + 2);
      LastParagraphSkipsSeparators(s[e..]);
      var qs := Paragraphs(s[e..]);
      var ps := Paragraphs(s);
      assert ps == [s[..i]] + qs;
      assert ps[|ps| - 1] == qs[|qs| - 1];
      assert AfterSeparators(s) == AfterSeparators(s[e..]);
  }

  lemma LastParagraphIsLast(s: string)
    ensures IsLastParagraph(s, LastParagraph(s))
  {
    LastParagraphSkipsSeparators(s);
    AfterSeparatorsIsLast(s);
  }

  /** One separator step: the last paragraph of the text after the first
      separator is the last paragraph of the whole text. */
  lemma LastParagraphStep(s: string, i: nat, e: nat, r: string)
    requires OccursAt(s, "\n\n", i)
    requires i + 2 <= e <= |s|
    requires forall k :: i + 2 <= k < e ==> s[k] == '\n'
    requires e == |s| || s[e] != '\n'
    requires IsLastParagraph(s[e..], r)
    ensures IsLastParagraph(s, r)
  {
    assert Contains(s, "\n\n");
    if r == s[e..] {
      SeparatorBeforeRest(s, i, e);
    } else {
      SeparatorCarries(s, e, r);
    }
  }

  /** The text after a maximal newline run is preceded by a blank line and
      does not begin with a newline. */
  lemma SeparatorBeforeRest(s: string, i: nat, e: nat)
    requires OccursAt(s, "\n\n", i)
    requires i + 2 <= e <= |s|
    requires forall k :: i + 2 <= k < e ==> s[k] == '\n'
    requires e == |s| || s[e] != '\n'
    ensures EndsWith(s[..e], "\n\n") && (s[e..] == [] || s[e..][0] != '\n')
  {
    assert s[i] == '\n' && s[i + 1] == '\n';
    assert s[e - 2] == '\n' && s[e - 1] == '\n';
    assert s[..e][e - 2..] == "\n\n";
  }

  /** A blank line before a suffix `r` of `s[e..]` is a blank line before `r`
      in `s`. */
  lemma SeparatorCarries(s: string, e: nat, r: string)
    requires e <= |s|
    requires |r| <= |s[e..]| && r != s[e..] && r == s[|s| - |r|..]
    requires EndsWith(s[e..][..|s[e..]| - |r|], "\n\n")
    ensures EndsWith(s[..|s| - |r|], "\n\n")
  {
    var t := s[e..];
    var n := |s| - |r|;
    assert s[..n] == s[..e] + t[..|t| - |r|];
    assert s[..n][n - 2..] == t[..|t| - |r|][|t| - |r| - 2..];
  }

  /** Text that ends with a blank line and then a line-break-free paragraph
      has that paragraph as its last one, whatever comes before. */
  lemma LastParagraphAfterBlank(pre: string, last: string)
    requires '\n' !in last
    ensures LastParagraph(pre + "\n\n" + last) == last
  {
    var s := pre + "\n\n" + last;
    var r := LastParagraph(s);
    var L := |last|;
    LastParagraphIsLast(s);
    assert s[|s| - L..] == last;
    assert s[|s| - L - 2] == '\n' && s[|s| - L - 1] == '\n';
    assert OccursAt(s, "\n\n", |s| - L - 2);
    SuffixAfterBlank(s, L, r);
  }

  /** A last paragraph of `s` is no longer than a line-break-free tail of
      length `L` preceded by a blank line, and no shorter either. */
  lemma SuffixAfterBlank(s: string, L: nat, r: string)
    requires L + 2 <= |s| && s[|s| - L - 2] == '\n' && s[|s| - L - 1] == '\n'
    requires '\n' !in s[|s| - L..]
    requires IsLastParagraph(s, r) && r != s
    ensures r == s[|s| - L..]
  {
    LongerSuffixHasBlank(s, L, r);
    ShorterSuffixAfterBreak(s, L, r);
  }

  /** A suffix reaching back over the blank line holds a blank line, or
      starts with a line break when it reaches back by one character only. */
  lemma LongerSuffixHasBlank(s: string, L: nat, r: string)
    requires L + 2 <= |s| && s[|s| - L - 2] == '\n' && s[|s| - L - 1] == '\n'
    requires |r| <= |s| && r == s[|s| - |r|..]
    ensures |r| >= L + 2 ==> OccursAt(r, "\n\n", |r| - L - 2)
    ensures |r| == L + 1 ==> r[0] == '\n'
  {
    if |r| >= L + 2 {
      assert r[|r| - L - 2..|r| - L] == "\n\n";
    }
  }

  /** A shorter suffix that follows a blank line has a line break just
      before it, inside the last `L` characters. */
  lemma ShorterSuffixAfterBreak(s: string, L: nat, r: string)
    requires L <= |s| && |r| <= |s|
    requires EndsWith(s[..|s| - |r|], "\n\n")
    ensures |r| < L ==> '\n' in s[|s| - L..]
  {
    if |r| < L {
      var p := s[..|s| - |r|];
      assert p[|p| - 1] == '\n';
      assert s[|s| - L..][L - |r| - 1] == '\n';
    }
  }
}
