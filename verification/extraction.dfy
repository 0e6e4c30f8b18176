/** Recovering a JSON value from free-form model output: the whole text,
    then the greedy brace span `/\{[\s\S]*\}/`, then line reconstruction.
    `JSON.parse` itself is a parameter: `Some(v)` when it returns `v`,
    `None` when it throws. */
module Extraction {
  import opened Options
  import opened Text
  import opened Json

  type Parser = string -> Option<Value>

  // ---------------------------------------------------------------------
  // Stage 2: the greedy brace span
  // ---------------------------------------------------------------------

  /** The bounds `[a, b)` of `text.match(/\{[\s\S]*\}/)`: the leftmost `{`
      through the rightmost `}`. There is a match exactly when some `{`
      comes before some `}`. */
  function BraceBounds(s: string): (r: Option<(nat, nat)>)
    ensures r.Some? ==>
      && r.value.0 < r.value.1 <= |s|
      && s[r.value.0] == '{' && s[r.value.1 - 1] == '}'
      && '{' !in s[..r.value.0] && '}' !in s[r.value.1..]
    ensures r.None? <==> forall i, j :: 0 <= i < j < |s| && s[i] == '{' ==> s[j] != '}'
  {
    match FirstIndex(s, '{')
    case None => None
    case Some(a) =>
      match LastIndex(s, '}')
      case None => None
      case Some(z) =>
        if a < z then
          Some((a, z + 1))
        else
          NoBraceAfter(s, a, z);
          None
  }

  /** Every `}` sits at or before the last one, so when the last `}` comes
      before the first `{` no `}` follows any `{`. */
  lemma NoBraceAfter(s: string, a: nat, z: nat)
    requires a < |s| && '{' !in s[..a]
    requires z < |s| && '}' !in s[z + 1..]
    requires z <= a
    ensures forall i, j :: 0 <= i < j < |s| && s[i] == '{' ==> s[j] != '}'
  {
    forall i, j | 0 <= i < j < |s| && s[i] == '{'
      ensures s[j] != '}'
    {
      assert s[z + 1..][j - z - 1] == s[j];
    }
  }

  /** Stage 2's candidate text. */
  function BraceSpan(s: string): Option<string> {
    match BraceBounds(s)
    case None => None
    case Some((a, b)) => Some(s[a..b])
  }

  /** An object literal surrounded by noise that holds no `{` before it and
      no `}` after it is exactly what stage 2 picks out. */
  lemma BraceSpanIgnoresNoise(pre: string, obj: string, post: string)
    requires '{' !in pre && '}' !in post
    requires |obj| >= 2 && obj[0] == '{' && obj[|obj| - 1] == '}'
    ensures BraceSpan(pre + obj + post) == Some(obj)
  {
    var s := pre + obj + post;
    var a := |pre|;
    var z := |pre| + |obj| - 1;
    assert s[..a] == pre;
    FirstIndexAt(s, '{', a);
    assert s[z + 1..] == post;
    LastIndexAt(s, '}', z);
    assert s[a..z + 1] == obj;
  }

  /** Stage 2 applied to its own result gives that result back. */
  lemma BraceSpanIdempotent(s: string)
    requires BraceSpan(s).Some?
    ensures BraceSpan(BraceSpan(s).value) == BraceSpan(s)
  {
    var span := BraceSpan(s).value;
    BraceSpanIgnoresNoise("", span, "");
    assert "" + span + "" == span;
  }

  // ---------------------------------------------------------------------
  // Stage 3: line reconstruction
  // ---------------------------------------------------------------------

  /** `line.trim().startsWith('{')` */
  predicate Opens(line: string) {
    StartsWith(Trim(line), "{")
  }

  /** `line.trim().endsWith('}')` */
  predicate Closes(line: string) {
    EndsWith(Trim(line), "}")
  }

  /** A test the loop applies to each line. */
  type LineTest = string -> bool

  /** The loop of stage 3 over the remaining lines, with the `inJson` flag
      it has so far: a line is appended once a line has opened, and the
      first closing line ends the loop after being appended. The two line
      tests are parameters so that the facts below hold for any tests. */
  function Gather(lines: seq<string>, inJson: bool, opens: LineTest, closes: LineTest): string
    decreases |lines|
  {
    if |lines| == 0 then ""
    else
      var on := inJson || opens(lines[0]);
      var taken := if on then lines[0] else "";
      if closes(lines[0]) then taken else taken + Gather(lines[1..], on, opens, closes)
  }

  /** Stage 3's candidate text: the loop over `text.split('\n')` with the
      tests `Opens` and `Closes`. */
  function ReconstructText(text: string): (r: string)
    ensures r == LineSpan(SplitOn(text, '\n'), Opens, Closes)
  {
    var lines := SplitOn(text, '\n');
    GatherIsLineSpan(lines, Opens, Closes);
    Gather(lines, false, Opens, Closes)
  }

  /** The index of the first line that passes `p`, or `|lines|` when none does. */
  function FirstWhere(lines: seq<string>, p: LineTest): (k: nat)
    ensures k <= |lines|
    ensures k < |lines| ==> p(lines[k])
    ensures forall i :: 0 <= i < k ==> !p(lines[i])
  {
    if |lines| == 0 then 0
    else if p(lines[0]) then 0
    else 1 + FirstWhere(lines[1..], p)
  }

  /** Where the loop stops: just after the first closing line, or at the end. */
  function StopAt(lines: seq<string>, closes: LineTest): (k: nat)
    ensures k <= |lines|
  {
    var c := FirstWhere(lines, closes);
    if c < |lines| then c + 1 else |lines|
  }

  /** Stage 3 stated directly: the lines from the first opening line up to
      and including the first closing line, joined with no separator; empty
      when a closing line comes before every opening line. */
  function LineSpan(lines: seq<string>, opens: LineTest, closes: LineTest): string {
    var start := FirstWhere(lines, opens);
    var stop := StopAt(lines, closes);
    if start < stop then Concat(lines[start..stop]) else ""
  }

  /** Once a line has opened, the loop takes every line up to the stop. */
  lemma {:induction false} GatherOpen(lines: seq<string>, opens: LineTest, closes: LineTest)
    ensures Gather(lines, true, opens, closes) == Concat(lines[..StopAt(lines, closes)])
    decreases |lines|
  {
    if |lines| > 0 && !closes(lines[0]) {
      var rest := lines[1..];
      GatherOpen(rest, opens, closes);
      assert StopAt(lines, closes) == StopAt(rest, closes) + 1;
      assert lines[..StopAt(lines, closes)] == [lines[0]] + rest[..StopAt(rest, closes)];
    } else if |lines| > 0 {
      assert lines[..StopAt(lines, closes)] == [lines[0]];
    }
  }

  /** The loop of stage 3 computes `LineSpan`. */
  lemma {:induction false} GatherIsLineSpan(lines: seq<string>, opens: LineTest, closes: LineTest)
    ensures Gather(lines, false, opens, closes) == LineSpan(lines, opens, closes)
    decreases |lines|
  {
    if |lines| == 0 {
    } else if opens(lines[0]) {
      GatherOpen(lines, opens, closes);
    } else if closes(lines[0]) {
      assert StopAt(lines, closes) == 1;
    } else {
      var rest := lines[1..];
      GatherIsLineSpan(rest, opens, closes);
      var start := FirstWhere(rest, opens);
      var stop := StopAt(rest, closes);
      assert FirstWhere(lines, opens) == start + 1;
      assert StopAt(lines, closes) == stop + 1;
      if start < stop {
        assert lines[start + 1..stop + 1] == rest[start..stop];
      }
    }
  }

  lemma {:induction false} ConcatAvoids(parts: seq<string>, c: char)
    requires forall i :: 0 <= i < |parts| ==> c !in parts[i]
    ensures c !in Concat(parts)
    decreases |parts|
  {
    if |parts| > 0 {
      ConcatAvoids(parts[1..], c);
    }
  }

  /** What `trimStart` leaves of `a + b` starts where it starts for `a`, as
      long as `a` is not all white space. */
  lemma {:induction false} TrimStartAppend(a: string, b: string)
    requires TrimStart(a) != []
    ensures TrimStart(a + b) == TrimStart(a) + b
    decreases |a|
  {
    if |a| > 0 && IsSpace(a[0]) {
      assert (a + b)[1..] == a[1..] + b;
      TrimStartAppend(a[1..], b);
    }
  }

  /** A line opens exactly when its first character that is not white space
      is `{`. */
  lemma OpensByFirst(line: string)
    ensures Opens(line) <==> TrimStart(line) != [] && TrimStart(line)[0] == '{'
  {
    var t := TrimStart(line);
    var r := TrimEnd(t);
    StartsWithChar(r, '{');
    TrimEndKeepsFirst(t);
  }

  /** `trimEnd` keeps a first character that is not white space. */
  lemma TrimEndKeepsFirst(t: string)
    requires t == [] || !IsSpace(t[0])
    ensures TrimEnd(t) != [] <==> t != []
    ensures t != [] ==> TrimEnd(t)[0] == t[0]
  {
    TrimEndRemovesSpace(t);
  }

  /** A line that opens still opens when more text follows it. */
  lemma OpensAppend(a: string, b: string)
    requires Opens(a)
    ensures Opens(a + b)
  {
    OpensByFirst(a);
    TrimStartAppend(a, b);
    assert TrimStart(a + b)[0] == TrimStart(a)[0];
    OpensByFirst(a + b);
  }

  /** What stage 3 accumulates is a single line, and one that opens
      unless it is empty. */
  lemma LineSpanShape(lines: seq<string>)
    requires forall i :: 0 <= i < |lines| ==> '\n' !in lines[i]
    ensures '\n' !in LineSpan(lines, Opens, Closes)
    ensures LineSpan(lines, Opens, Closes) == "" || Opens(LineSpan(lines, Opens, Closes))
  {
    var start := FirstWhere(lines, Opens);
    var stop := StopAt(lines, Closes);
    LineSpanParts(lines, Opens, Closes);
    if start < stop {
      var rest := Concat(lines[start + 1..stop]);
      assert Opens(lines[start]);
      OpensAppend(lines[start], rest);
      assert LineSpan(lines, Opens, Closes) == lines[start] + rest;
    }
  }

  /** For any line tests, the span is made of lines of the input, and it
      begins with the first opening line. */
  lemma LineSpanParts(lines: seq<string>, opens: LineTest, closes: LineTest)
    requires forall i :: 0 <= i < |lines| ==> '\n' !in lines[i]
    ensures '\n' !in LineSpan(lines, opens, closes)
    ensures var start := FirstWhere(lines, opens);
      var stop := StopAt(lines, closes);
      && (start < stop ==> LineSpan(lines, opens, closes) == lines[start] + Concat(lines[start + 1..stop]))
      && (stop <= start ==> LineSpan(lines, opens, closes) == "")
  {
    var start := FirstWhere(lines, opens);
    var stop := StopAt(lines, closes);
    if start < stop {
      var span := lines[start..stop];
      ConcatAvoids(span, '\n');
      assert span[1..] == lines[start + 1..stop];
      assert Concat(span) == span[0] + Concat(span[1..]);
    }
  }

  /** A single line that opens, or the empty text, is its own stage-3 result. */
  lemma ReconstructSingleLine(r: string)
    requires '\n' !in r
    requires r == "" || Opens(r)
    ensures ReconstructText(r) == r
  {
    assert FirstIndex(r, '\n').None?;
    assert SplitOn(r, '\n') == [r];
    SingleLineSpan(r, Opens, Closes);
  }

  /** For any line tests, one line that opens, or the empty line, is its
      own span. */
  lemma SingleLineSpan(r: string, opens: LineTest, closes: LineTest)
    requires r == "" || opens(r)
    ensures LineSpan([r], opens, closes) == r
  {
    assert StopAt([r], closes) == 1;
    assert Concat([r]) == r;
    assert [r][0..1] == [r];
    if r != "" {
      assert FirstWhere([r], opens) == 0;
    }
  }

  /** Stage 3 applied to its own result gives that result back. */
  lemma ReconstructIdempotent(text: string)
    ensures ReconstructText(ReconstructText(text)) == ReconstructText(text)
  {
    LineSpanShape(SplitOn(text, '\n'));
    ReconstructSingleLine(ReconstructText(text));
  }

  // ---------------------------------------------------------------------
  // The ladder
  // ---------------------------------------------------------------------

  /** Stage 2: parse the brace span; fails when there is none. */
  function SpanStage(text: string, parse: Parser): Option<Value> {
    match BraceSpan(text)
    case None => None
    case Some(span) => parse(span)
  }

  /** Stage 3: parse the reconstructed lines; fails when nothing was
      accumulated. */
  function LineStage(text: string, parse: Parser): Option<Value> {
    var joined := ReconstructText(text);
    if joined == "" then None else parse(joined)
  }

  /** The extraction ladder of `analyzeRock`: the first stage that parses
      wins, and a later stage runs only when every earlier one threw.
      `None` means all three threw. */
  function Ladder(text: string, parse: Parser): (r: Option<Value>)
    ensures parse(text).Some? ==> r == parse(text)
    ensures parse(text).None? && SpanStage(text, parse).Some? ==> r == SpanStage(text, parse)
    ensures parse(text).None? && SpanStage(text, parse).None? ==> r == LineStage(text, parse)
    ensures r.None? <==>
      parse(text).None? && SpanStage(text, parse).None? && LineStage(text, parse).None?
  {
    match parse(text)
    case Some(v) => Some(v)
    case None =>
      match SpanStage(text, parse)
      case Some(v) => Some(v)
      case None => LineStage(text, parse)
  }

  /** A JSON object embedded in prose is recovered by the ladder: when the
      whole text does not parse but the object alone does, the result is
      what parsing the object alone gives. */
  lemma LadderRecoversEmbeddedObject(pre: string, obj: string, post: string, parse: Parser)
    requires '{' !in pre && '}' !in post
    requires |obj| >= 2 && obj[0] == '{' && obj[|obj| - 1] == '}'
    requires parse(pre + obj + post).None? && parse(obj).Some?
    ensures Ladder(pre + obj + post, parse) == parse(obj)
  {
    BraceSpanIgnoresNoise(pre, obj, post);
  }
}
