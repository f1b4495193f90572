/** The line classifier of src/scan.rs: an eleven-state machine that labels each
    line of a document, and the fold that labels a whole document. */
module Classifier {
  import opened Text

  /** What a line is, given the lines before it. */
  datatype Attr =
    | BaseText
    | ConsoleHeader
    | ConsoleHeaderContd
    | ConsoleCommand
    | ConsoleCommandEnd
    | ConsoleComment
    | ConsoleOutput
    | ConsoleFooter
    | OthersHeader
    | OthersContent
    | OthersFooter

  /** A line and its label. */
  datatype Line = Line(text: string, attr: Attr)

  /** The errors the scan reports: a runner that could not run a script, a run whose
      success flag came back false, and a panic in `merge_outputs`. */
  datatype ScanError = RunnerFailed(message: string) | BlocksFailed | Panicked

  /** `Attr::next`: the label of `line` when the previous line was labelled `a`; it is always
      one of the transitions `Step` allows from `a`. */
  function Next(a: Attr, line: string): (r: Attr)
    ensures Step(a, r)
  {
    match a
    case BaseText | ConsoleFooter | OthersFooter => ParseBaseText(line)
    case ConsoleHeader | ConsoleHeaderContd | ConsoleComment | ConsoleOutput | ConsoleCommandEnd => ParseCommand(line)
    case ConsoleCommand => ParseCommandContinued(line)
    case OthersHeader | OthersContent => ParseOthers(line)
  }

  /** Outside any fence: plain text, or the header of a console fence or of another fence. */
  function ParseBaseText(line: string): (r: Attr)
    ensures r == BaseText || r == OthersHeader || Opens(r)
  {
    if !StartsWith(line, "```") then BaseText
    else
      var rem := Trim(line[3..]);
      if !StartsWith(rem, "console") then OthersHeader
      else
        var words := Tokens(rem);
        if words != [] && "continued" in words[1..] then ConsoleHeaderContd else ConsoleHeader
  }

  /** A prompt line, or a line after one ending in '\': the command goes on if this line ends in '\' too. */
  function ParseCommandContinued(line: string): (r: Attr)
    ensures r == ConsoleCommand || r == ConsoleCommandEnd
  {
    if EndsWith(line, '\\') then ConsoleCommand else ConsoleCommandEnd
  }

  /** Inside a console fence: a prompt, a kept comment, the closing fence, or output. */
  function ParseCommand(line: string): (r: Attr)
    ensures InBody(r) || r == ConsoleFooter
  {
    if StartsWith(line, "$ ") || StartsWith(line, "# ") then ParseCommandContinued(line)
    else if StartsWith(line, "  #") then ConsoleComment
    else if StartsWith(line, "```") then ConsoleFooter
    else ConsoleOutput
  }

  /** Inside a fence of another kind: content until a line starting with "```". */
  function ParseOthers(line: string): (r: Attr)
    ensures r == OthersContent || r == OthersFooter
  {
    if StartsWith(line, "```") then OthersFooter else OthersContent
  }

  /** Lines that open a console block. */
  predicate Opens(a: Attr) {
    a == ConsoleHeader || a == ConsoleHeaderContd
  }

  /** Lines between a console header and its footer. */
  predicate InBody(a: Attr) {
    a == ConsoleCommand || a == ConsoleCommandEnd || a == ConsoleComment || a == ConsoleOutput
  }

  /** Lines outside every console block. */
  predicate OutsideConsole(a: Attr) {
    a == BaseText || a == OthersHeader || a == OthersContent || a == OthersFooter
  }

  /** The four `parse_*` helpers `Attr::next` dispatches to. */
  datatype Parser = BaseTextParser | CommandParser | ContinuedParser | OthersParser

  /** The parser `Next` hands a line to from state `a`: states with the same parser
      label every following line alike. */
  function ParserOf(a: Attr): Parser {
    match a
    case BaseText | ConsoleFooter | OthersFooter => BaseTextParser
    case ConsoleHeader | ConsoleHeaderContd | ConsoleComment | ConsoleOutput | ConsoleCommandEnd => CommandParser
    case ConsoleCommand => ContinuedParser
    case OthersHeader | OthersContent => OthersParser
  }

  /** The labels that can follow `a`, whatever the line: the classifier's transitions
      with the line abstracted away. */
  predicate Step(a: Attr, b: Attr) {
    match ParserOf(a)
    case BaseTextParser => b == BaseText || b == OthersHeader || Opens(b)
    case CommandParser => InBody(b) || b == ConsoleFooter
    case ContinuedParser => b == ConsoleCommand || b == ConsoleCommandEnd
    case OthersParser => b == OthersContent || b == OthersFooter
  }

  /** The label after `ann`, starting from `start`. */
  function StateAfter(ann: seq<Line>, start: Attr): Attr {
    if ann == [] then start else ann[|ann| - 1].attr
  }

  /** `annotate_lines` as a fold: each line labelled by `Next` from the label before it. */
  function Annotate(lines: seq<string>, start: Attr): (ann: seq<Line>)
    ensures |ann| == |lines|
    ensures forall i :: 0 <= i < |lines| ==> ann[i].text == lines[i]
  {
    if lines == [] then []
    else
      var prev := Annotate(lines[..|lines| - 1], start);
      prev + [Line(lines[|lines| - 1], Next(StateAfter(prev, start), lines[|lines| - 1]))]
  }

  /** The texts of annotated lines. */
  function Texts(ann: seq<Line>): seq<string> {
    seq(|ann|, i requires 0 <= i < |ann| => ann[i].text)
  }

  /** Annotating one more line labels it from the state the others leave. */
  lemma AnnotateSnoc(lines: seq<string>, line: string, start: Attr)
    ensures Annotate(lines + [line], start)
            == Annotate(lines, start) + [Line(line, Next(StateAfter(Annotate(lines, start), start), line))]
  {
    assert (lines + [line])[..|lines|] == lines;
  }

  /** The texts of two annotations laid end to end. */
  lemma TextsAppend(a: seq<Line>, b: seq<Line>)
    ensures Texts(a + b) == Texts(a) + Texts(b)
  {
  }

  /** Labelling keeps the texts. */
  lemma TextsOfAnnotate(lines: seq<string>, start: Attr)
    ensures Texts(Annotate(lines, start)) == lines
  {
    var ann := Annotate(lines, start);
    assert |Texts(ann)| == |lines|;
    forall i | 0 <= i < |lines| ensures Texts(ann)[i] == lines[i] {
      assert ann[i].text == lines[i];
    }
  }

  /** Two states with the same parser label the next line alike. */
  lemma NextByParser(a: Attr, b: Attr, line: string)
    requires ParserOf(a) == ParserOf(b)
    ensures Next(a, line) == Next(b, line)
  {
  }

  /** Every label is what `Next` gives from the label before it. */
  ghost predicate Follows(ann: seq<Line>, start: Attr) {
    && (ann != [] ==> ann[0].attr == Next(start, ann[0].text))
    && forall i, j {:trigger ann[i], ann[j]} :: 0 <= i && j == i + 1 && j < |ann| ==> ann[j].attr == Next(ann[i].attr, ann[j].text)
  }

  /** The fold labels every line by the transition function. */
  lemma {:induction false} AnnotateFollows(lines: seq<string>, start: Attr)
    ensures Follows(Annotate(lines, start), start)
  {
    if lines != [] {
      var n := |lines| - 1;
      var prev := Annotate(lines[..n], start);
      AnnotateFollows(lines[..n], start);
      var ann := Annotate(lines, start);
      assert ann == prev + [Line(lines[n], Next(StateAfter(prev, start), lines[n]))];
      forall i, j | 0 <= i && j == i + 1 && j < |ann|
        ensures ann[j].attr == Next(ann[i].attr, ann[j].text)
      {
        if j < n {
          assert ann[i] == prev[i] && ann[j] == prev[j];
        }
      }
    }
  }

  /** Consecutive labels are transitions of the classifier. */
  ghost predicate Chained(ann: seq<Line>, start: Attr) {
    ann == [] || (Chained(ann[..|ann| - 1], start) && Step(StateAfter(ann[..|ann| - 1], start), ann[|ann| - 1].attr))
  }

  /** A prefix of a chained annotation is chained. */
  lemma {:induction false} ChainedPrefix(ann: seq<Line>, start: Attr, n: nat)
    requires Chained(ann, start) && n <= |ann|
    ensures Chained(ann[..n], start)
  {
    if n < |ann| {
      ChainedPrefix(ann[..|ann| - 1], start, n);
      assert ann[..|ann| - 1][..n] == ann[..n];
    } else {
      assert ann[..n] == ann;
    }
  }

  /** A chained annotation splits into two chained parts, the second starting where the first ends. */
  lemma {:induction false} ChainedSplit(a: seq<Line>, b: seq<Line>, start: Attr)
    requires Chained(a + b, start)
    ensures Chained(a, start) && Chained(b, StateAfter(a, start))
  {
    if b == [] {
      assert a + b == a;
    } else {
      var ab := a + b;
      var b' := b[..|b| - 1];
      assert ab[..|ab| - 1] == a + b';
      ChainedSplit(a, b', start);
      if b' == [] {
        assert StateAfter(a + b', start) == StateAfter(a, start);
      } else {
        assert StateAfter(a + b', start) == StateAfter(b', StateAfter(a, start));
      }
    }
  }

  /** Each label of a chained annotation is a transition from the one before it. */
  lemma ChainedStep(ann: seq<Line>, start: Attr, i: nat)
    requires Chained(ann, start) && i < |ann|
    ensures Step(if i == 0 then start else ann[i - 1].attr, ann[i].attr)
  {
    ChainedPrefix(ann, start, i + 1);
    var pre := ann[..i + 1];
    assert pre[..i] == ann[..i];
    assert pre[i] == ann[i];
    if i > 0 {
      assert pre[..i][i - 1] == ann[i - 1];
    }
  }

  /** Every header line of an annotation starts with "```" and is not exactly "```". */
  ghost predicate FencedHeaders(ann: seq<Line>) {
    forall l :: l in ann && Opens(l.attr) ==> StartsWith(l.text, "```") && l.text != "```"
  }

  /** The fold only makes transitions the classifier allows, and labels as headers only fence lines. */
  lemma {:induction false} AnnotateChained(lines: seq<string>, start: Attr)
    ensures Chained(Annotate(lines, start), start)
    ensures FencedHeaders(Annotate(lines, start))
  {
    if lines != [] {
      var n := |lines| - 1;
      var prev := Annotate(lines[..n], start);
      AnnotateChained(lines[..n], start);
      var ann := Annotate(lines, start);
      var last := Line(lines[n], Next(StateAfter(prev, start), lines[n]));
      assert ann == prev + [last];
      assert ann[..|ann| - 1] == prev;
      if Opens(last.attr) {
        HeaderText(StateAfter(prev, start), lines[n]);
      }
    }
  }

  /** `annotate_lines`: the labelled lines of a document, starting in `BaseText`. */
  method AnnotateLines(doc: string) returns (ann: seq<Line>)
    ensures ann == Annotate(Lines(doc), BaseText)
  {
    var lines := Lines(doc);
    ann := [];
    var attr := BaseText;
    for i := 0 to |lines|
      invariant ann == Annotate(lines[..i], BaseText)
      invariant attr == StateAfter(ann, BaseText)
    {
      assert lines[..i + 1][..i] == lines[..i];
      var next := Next(attr, lines[i]);
      ann := ann + [Line(lines[i], next)];
      attr := next;
    }
    assert lines[..|lines|] == lines;
  }

  /** Outside console blocks, a line is plain text unless it starts with "```"; a fence is a
      console header when the rest of the line, trimmed, starts with "console", and a continued
      one exactly when a word after the first is "continued". */
  lemma ClassifyBetweenBlocks(a: Attr, line: string)
    requires a == BaseText || a == ConsoleFooter || a == OthersFooter
    ensures !StartsWith(line, "```") ==> Next(a, line) == BaseText
    ensures StartsWith(line, "```") && !StartsWith(Trim(line[3..]), "console") ==> Next(a, line) == OthersHeader
    ensures StartsWith(line, "```") && StartsWith(Trim(line[3..]), "console")
            ==> (Next(a, line) == ConsoleHeaderContd
                 <==> exists k :: 1 <= k < |Tokens(Trim(line[3..]))| && Tokens(Trim(line[3..]))[k] == "continued")
    ensures StartsWith(line, "```") && StartsWith(Trim(line[3..]), "console") ==> Opens(Next(a, line))
  {
    assert Next(a, line) == ParseBaseText(line);
    if StartsWith(line, "```") && StartsWith(Trim(line[3..]), "console") {
      var rem := Trim(line[3..]);
      var words := Tokens(rem);
      assert rem[0] == 'c' && !IsWhitespace(rem[0]);
      assert TrimStart(rem) == rem;
      assert WordEnd(rem) > 0;
      assert words != [];
      var contd := "continued" in words[1..];
      assert Next(a, line) == if contd then ConsoleHeaderContd else ConsoleHeader;
      if contd {
        var m :| 0 <= m < |words[1..]| && words[1..][m] == "continued";
        assert 1 <= m + 1 < |words| && words[m + 1] == "continued";
        assert Tokens(Trim(line[3..]))[m + 1] == "continued";
        assert Next(a, line) == ConsoleHeaderContd;
      } else {
        forall k | 1 <= k < |words|
          ensures words[k] != "continued"
        {
          assert words[k] == words[1..][k - 1];
        }
      }
    }
  }

  /** Inside a console block, after a line that does not end a command in '\', a "$ " or "# "
      prompt opens a command, "  #" is a comment, "```" closes the block, and anything else is
      output; after a line ending in '\' every line continues the command. */
  lemma ClassifyInsideBlock(a: Attr, line: string)
    requires Opens(a) || a == ConsoleComment || a == ConsoleOutput || a == ConsoleCommandEnd || a == ConsoleCommand
    ensures a == ConsoleCommand ==> Next(a, line) == (if EndsWith(line, '\\') then ConsoleCommand else ConsoleCommandEnd)
    ensures a != ConsoleCommand && (StartsWith(line, "$ ") || StartsWith(line, "# "))
            ==> Next(a, line) == (if EndsWith(line, '\\') then ConsoleCommand else ConsoleCommandEnd)
    ensures a != ConsoleCommand && !StartsWith(line, "$ ") && !StartsWith(line, "# ") && StartsWith(line, "  #")
            ==> Next(a, line) == ConsoleComment
    ensures a != ConsoleCommand && !StartsWith(line, "$ ") && !StartsWith(line, "# ") && !StartsWith(line, "  #")
            ==> Next(a, line) == (if StartsWith(line, "```") then ConsoleFooter else ConsoleOutput)
  {
  }

  /** Inside a fence of another kind, any line starting with "```" closes it, whatever follows the
      backticks, and every other line is its content. */
  lemma ClassifyInsideOtherFence(a: Attr, line: string)
    requires a == OthersHeader || a == OthersContent
    ensures Next(a, line) == (if StartsWith(line, "```") then OthersFooter else OthersContent)
  {
  }

  /** Only a state whose successor is parsed by `parse_command` can be followed by output. */
  lemma OutputFollowsCommandParser(a: Attr, line: string)
    requires Next(a, line) == ConsoleOutput
    ensures ParserOf(a) == ParserOf(ConsoleOutput)
  {
  }

  /** A header line starts with "```" and is never exactly "```". */
  lemma HeaderText(a: Attr, line: string)
    requires Opens(Next(a, line))
    ensures StartsWith(line, "```") && line != "```"
  {
    assert Next(a, line) == ParseBaseText(line);
    var rem := Trim(line[3..]);
    assert StartsWith(rem, "console");
    assert |rem| <= |line| - 3;
  }

  /** Every output line lies inside a console block: some earlier line opened one, and everything
      between that header and the output line is a command, comment or output line. */
  lemma {:induction false} OutputInsideBlock(ann: seq<Line>, i: nat)
    requires Chained(ann, BaseText)
    requires i < |ann| && InBody(ann[i].attr)
    ensures exists j :: 0 <= j < i && Opens(ann[j].attr) && forall k :: j < k < i ==> InBody(ann[k].attr)
  {
    ChainedStep(ann, BaseText, i);
    if i == 0 {
      assert false;
    } else if !Opens(ann[i - 1].attr) {
      assert InBody(ann[i - 1].attr);
      OutputInsideBlock(ann, i - 1);
      var j :| 0 <= j < i - 1 && Opens(ann[j].attr) && forall k :: j < k < i - 1 ==> InBody(ann[k].attr);
      assert forall k :: j < k < i ==> InBody(ann[k].attr);
    }
  }

  /** "```console" opens a console block that starts a new script. */
  lemma PlainHeaderExample()
    ensures Next(BaseText, "```console") == ConsoleHeader
  {
    assert "```console"[3..] == "console";
    assert TrimStart("console") == "console";
    assert TrimEnd("console") == "console";
    WordEndOfWord("console");
    assert "console"[7..] == "" && "console"[..7] == "console";
    assert Tokens("") == [];
    assert Tokens("console") == ["console"] + Tokens("");
  }

  /** The rest of the fence line "``` console continued", trimmed. */
  lemma ContinuedFenceRest()
    ensures Trim("``` console continued"[3..]) == "console" + " " + "continued"
  {
    var rem := "console" + " " + "continued";
    assert "``` console continued"[3..] == " " + rem;
    assert TrimStart(" " + rem) == rem by {
      assert (" " + rem)[1..] == rem;
      assert TrimStart(rem) == rem;
    }
    assert TrimEnd(rem) == rem;
  }

  /** The second word of "console continued" is "continued". */
  lemma ContinuedFenceWords()
    ensures Tokens("console" + " " + "continued") == ["console", "continued"]
  {
    assert Lower("console") && Lower("continued");
    LowerHasNoWhitespace("console");
    LowerHasNoWhitespace("continued");
    TwoWords("console", "continued");
  }

  /** Blanks after the backticks are trimmed, and a later word "continued" marks a continuation. */
  lemma ContinuedHeaderExample()
    ensures Next(ConsoleFooter, "``` console continued") == ConsoleHeaderContd
  {
    var line := "``` console continued";
    assert StartsWith(line, "```");
    ContinuedFenceRest();
    ContinuedFenceWords();
    assert StartsWith("console" + " " + "continued", "console");
    ClassifyBetweenBlocks(ConsoleFooter, line);
    assert Tokens(Trim(line[3..]))[1] == "continued";
  }

  /** The rest of the fence line must start with "console": other word orders make another kind of fence. */
  lemma OtherFenceExample()
    ensures Next(BaseText, "```continued console") == OthersHeader
  {
    assert "```continued console"[3..] == "continued console";
    assert TrimStart("continued console") == "continued console";
    assert TrimEnd("continued console") == "continued console";
    NotPrefixAt("continued console", "console", 3);
  }

  /** A root prompt "# " starts a command like "$ ", and a trailing '\' continues it. */
  lemma PromptExamples()
    ensures Next(ConsoleHeader, "# whoami") == ConsoleCommandEnd
    ensures Next(ConsoleComment, "$ ls \\") == ConsoleCommand
  {
  }

  /** A continued command takes even a line that reads "```"; outside a command that line
      closes the block. */
  lemma FenceExamples()
    ensures Next(ConsoleCommand, "```") == ConsoleCommandEnd
    ensures Next(ConsoleHeader, "```") == ConsoleFooter
  {
  }

  /** Exactly two spaces and then '#' make a comment, with or without a blank after the '#'. */
  lemma CommentExamples()
    ensures Next(ConsoleOutput, "  # note") == ConsoleComment
    ensures Next(ConsoleOutput, "  #note") == ConsoleComment
  {
  }

  /** A single space before the '#' makes output. */
  lemma OneSpaceOutputExample()
    ensures Next(ConsoleOutput, " # note") == ConsoleOutput
  {
    NotPrefixAt(" # note", "  #", 1);
  }

  /** Three spaces before the '#' make output. */
  lemma ThreeSpacesOutputExample()
    ensures Next(ConsoleOutput, "   # note") == ConsoleOutput
  {
    NotPrefixAt("   # note", "  #", 2);
  }

  /** "#" without a blank after it makes output. */
  lemma HashOutputExample()
    ensures Next(ConsoleCommandEnd, "#no space") == ConsoleOutput
  {
    NotPrefixAt("#no space", "# ", 1);
  }

  /** "```console" inside a fence of another kind closes that fence and opens no console block;
      the line after it is read as plain text again. */
  lemma ConsoleFenceInsideOtherFence()
    ensures Next(OthersHeader, "```console") == OthersFooter
    ensures Next(OthersContent, "```console") == OthersFooter
    ensures Next(OthersFooter, "$ ls") == BaseText
  {
  }
}
