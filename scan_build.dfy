/** `build_commands` of src/scan.rs: a leading script for what precedes the first console header,
    and a new script at each `ConsoleHeader`, while a `continued` header adds its block to the
    script before it. The scripts echo the fence, prompt and comment lines of their blocks and run
    each finished command. */
module CommandBuilder {
  import opened Text
  import opened Classifier
  import opened Configuration
  import opened OutputRemoval

  /** `shell_escape::escape`, which belongs to another library: any quoting function. */
  type Escape = string -> string

  /** A script line: an `echo` of a document line, or a command to run. */
  datatype Stmt = Echo(line: string) | Run(command: string)

  /** `echo`: the shell line that prints `line`. Its parts can be read back: the word "echo "
      first, the escaped line after it, and a '\n' at the end. */
  function EchoCommand(escape: Escape, line: string): (r: string)
    ensures |r| == |escape(line)| + 6
    ensures r[..5] == "echo " && r[5..|r| - 1] == escape(line) && r[|r| - 1] == '\n'
  {
    "echo " + escape(line) + "\n"
  }

  /** A prompt line without its "$ " or "# " prompt: a prompted line is its two-character prompt
      followed by the result, and any other line is left as it is. */
  function StripPrompt(line: string): (r: string)
    ensures StartsWith(line, "$ ") || StartsWith(line, "# ") ==> line == line[..2] + r
    ensures !StartsWith(line, "$ ") && !StartsWith(line, "# ") ==> r == line
  {
    if StartsWith(line, "$ ") || StartsWith(line, "# ") then line[2..] else line
  }

  /** The part one command line adds to the command being collected. */
  function CommandPart(line: string): string {
    StripPrompt(line) + "\n"
  }

  /** The alt-table lookup: the replacement when the command is a key, the command itself otherwise. */
  function Lookup(alt: map<string, string>, command: string): string {
    if command in alt then alt[command] else command
  }

  /** A command that no `alt` entry lists as its `raw` runs as it is. */
  lemma LookupUnlisted(alts: seq<AltCommand>, command: string)
    requires forall a :: a in alts ==> a.raw != command
    ensures Lookup(AltMap(alts), command) == command
  {
  }

  /** A command listed as the `raw` of an `alt` entry runs as the `alt` of the last such entry. */
  lemma LookupListed(alts: seq<AltCommand>, i: nat)
    requires i < |alts|
    requires forall j :: i < j < |alts| ==> alts[j].raw != alts[i].raw
    ensures Lookup(AltMap(alts), alts[i].raw) == alts[i].alt
  {
    AltMapLastWins(alts, i);
  }

  /** The labels whose lines a script echoes. */
  predicate Echoed(a: Attr) {
    Opens(a) || a == ConsoleComment || a == ConsoleFooter || a == ConsoleCommand || a == ConsoleCommandEnd
  }

  /** The command collected so far and not yet emitted after the lines `ann`. */
  function Pending(ann: seq<Line>): string {
    if ann == [] then ""
    else
      var prev := Pending(ann[..|ann| - 1]);
      var last := ann[|ann| - 1];
      if last.attr == ConsoleCommand then prev + CommandPart(last.text)
      else if last.attr == ConsoleCommandEnd then ""
      else prev
  }

  /** What a line adds to the current script, given the command collected before it. */
  function LineStmts(alt: map<string, string>, pending: string, x: Line): seq<Stmt> {
    if x.attr == ConsoleCommandEnd then
      [Echo(x.text), Run(Lookup(alt, Trim(pending + CommandPart(x.text))))]
    else if Echoed(x.attr) then [Echo(x.text)]
    else []
  }

  /** `stmts` appended to the last script. */
  function AddToLast(bins: seq<seq<Stmt>>, stmts: seq<Stmt>): (r: seq<seq<Stmt>>)
    requires bins != []
    ensures |r| == |bins|
  {
    bins[..|bins| - 1] + [bins[|bins| - 1] + stmts]
  }

  /** The number of lines labelled `ConsoleHeader`. */
  function CountHeaders(ann: seq<Line>): nat {
    if ann == [] then 0
    else CountHeaders(ann[..|ann| - 1]) + if ann[|ann| - 1].attr == ConsoleHeader then 1 else 0
  }

  /** The scripts of `build_commands`: a first one for whatever precedes every header, a new
      one at each `ConsoleHeader` (and not at a continued header), and each line's statements
      added to the newest script. */
  function Scripts(alt: map<string, string>, ann: seq<Line>): (r: seq<seq<Stmt>>)
    ensures |r| == 1 + CountHeaders(ann)
  {
    if ann == [] then [[]]
    else
      var init := ann[..|ann| - 1];
      var last := ann[|ann| - 1];
      var prev := Scripts(alt, init);
      var bins := if last.attr == ConsoleHeader then prev + [[]] else prev;
      AddToLast(bins, LineStmts(alt, Pending(init), last))
  }

  /** The text of one statement. */
  function StmtText(escape: Escape, s: Stmt): string {
    match s
    case Echo(line) => EchoCommand(escape, line)
    case Run(command) => command + "\n"
  }

  /** The text of a script. */
  function Render(escape: Escape, stmts: seq<Stmt>): string {
    if stmts == [] then "" else StmtText(escape, stmts[0]) + Render(escape, stmts[1..])
  }

  /** The texts of all scripts. */
  function RenderAll(escape: Escape, bins: seq<seq<Stmt>>): (r: seq<string>)
    ensures |r| == |bins|
  {
    if bins == [] then [] else RenderAll(escape, bins[..|bins| - 1]) + [Render(escape, bins[|bins| - 1])]
  }

  lemma {:induction false} RenderAppend(escape: Escape, a: seq<Stmt>, b: seq<Stmt>)
    ensures Render(escape, a + b) == Render(escape, a) + Render(escape, b)
  {
    if a != [] {
      assert (a + b)[1..] == a[1..] + b;
      RenderAppend(escape, a[1..], b);
    } else {
      assert a + b == b;
    }
  }

  /** Rendering after adding statements to the last script extends the last text. */
  lemma RenderAddToLast(escape: Escape, bins: seq<seq<Stmt>>, stmts: seq<Stmt>)
    requires bins != []
    ensures var old_ := RenderAll(escape, bins);
            RenderAll(escape, AddToLast(bins, stmts))
            == old_[|bins| - 1 := old_[|bins| - 1] + Render(escape, stmts)]
  {
    var n := |bins| - 1;
    var init, last := bins[..n], bins[n];
    var r := AddToLast(bins, stmts);
    assert r[..n] == init && r[n] == last + stmts;
    RenderAppend(escape, last, stmts);
    assert RenderAll(escape, r) == RenderAll(escape, init) + [Render(escape, last) + Render(escape, stmts)];
    assert RenderAll(escape, bins) == RenderAll(escape, init) + [Render(escape, last)];
  }

  /** The text a line adds to its script: its echo, then the finished command. */
  function LineOutput(escape: Escape, alt: map<string, string>, pending: string, x: Line): string {
    (if Echoed(x.attr) then EchoCommand(escape, x.text) else "")
    + (if x.attr == ConsoleCommandEnd then Lookup(alt, Trim(pending + CommandPart(x.text))) + "\n" else "")
  }

  /** The statements of a line render to the text it adds. */
  lemma LineText(escape: Escape, alt: map<string, string>, pending: string, x: Line)
    ensures Render(escape, LineStmts(alt, pending, x)) == LineOutput(escape, alt, pending, x)
  {
    var stmts := LineStmts(alt, pending, x);
    if x.attr == ConsoleCommandEnd {
      var c := Lookup(alt, Trim(pending + CommandPart(x.text)));
      assert stmts[1..][1..] == [];
      assert Render(escape, stmts[1..]) == c + "\n" + "";
      assert Render(escape, stmts) == EchoCommand(escape, x.text) + (c + "\n" + "");
    } else if Echoed(x.attr) {
      assert stmts[1..] == [];
    }
  }

  /** The scripts after one more line. */
  lemma ScriptsSnoc(alt: map<string, string>, ann: seq<Line>, x: Line)
    ensures Scripts(alt, ann + [x])
            == AddToLast(if x.attr == ConsoleHeader then Scripts(alt, ann) + [[]] else Scripts(alt, ann),
                         LineStmts(alt, Pending(ann), x))
  {
    SnocParts(ann, x);
  }

  /** One more line updates the collected command as `NextPending` says. */
  lemma PendingSnoc(ann: seq<Line>, x: Line)
    ensures Pending(ann + [x]) == NextPending(Pending(ann), x)
  {
    SnocParts(ann, x);
  }

  /** The command collected after one more line. */
  function NextPending(pending: string, x: Line): string {
    if x.attr == ConsoleCommand then pending + CommandPart(x.text)
    else if x.attr == ConsoleCommandEnd then ""
    else pending
  }

  /** The body of the loop of `build_commands` for one line: echo it when it is echoed,
      collect it when it is a command line, and emit the command when it is finished. */
  method EmitLine(alt: map<string, string>, escape: Escape, buf: string, command: string, x: Line)
    returns (buf': string, command': string)
    ensures buf' == buf + LineOutput(escape, alt, command, x)
    ensures command' == NextPending(command, x)
  {
    var echo := "";
    if Echoed(x.attr) {
      echo := EchoCommand(escape, x.text);
    }
    command' := command;
    if x.attr == ConsoleCommand || x.attr == ConsoleCommandEnd {
      command' := command' + StripPrompt(x.text) + "\n";
      assert command' == command + CommandPart(x.text);
    }
    var emitted := "";
    if x.attr == ConsoleCommandEnd {
      emitted := Lookup(alt, Trim(command')) + "\n";
      command' := "";
    }
    buf' := buf + (echo + emitted);
  }

  /** The script texts after one more line: a new empty text at a `ConsoleHeader`, then the
      line's statements appended to the last text. */
  lemma RenderSnoc(escape: Escape, alt: map<string, string>, ann: seq<Line>, x: Line)
    ensures var texts := RenderAll(escape, Scripts(alt, ann));
            var widened := if x.attr == ConsoleHeader then texts + [""] else texts;
            RenderAll(escape, Scripts(alt, ann + [x]))
            == widened[|widened| - 1 := widened[|widened| - 1] + LineOutput(escape, alt, Pending(ann), x)]
  {
    var prev := Scripts(alt, ann);
    var bins := if x.attr == ConsoleHeader then prev + [[]] else prev;
    var stmts := LineStmts(alt, Pending(ann), x);
    var texts := RenderAll(escape, prev);
    var widened := if x.attr == ConsoleHeader then texts + [""] else texts;
    calc {
      RenderAll(escape, Scripts(alt, ann + [x]));
    == { ScriptsSnoc(alt, ann, x); }
      RenderAll(escape, AddToLast(bins, stmts));
    == { RenderAddToLast(escape, bins, stmts); }
      RenderAll(escape, bins)[|bins| - 1 := RenderAll(escape, bins)[|bins| - 1] + Render(escape, stmts)];
    == { if x.attr == ConsoleHeader { RenderWiden(escape, prev); } }
      widened[|widened| - 1 := widened[|widened| - 1] + Render(escape, stmts)];
    == { LineText(escape, alt, Pending(ann), x); }
      widened[|widened| - 1 := widened[|widened| - 1] + LineOutput(escape, alt, Pending(ann), x)];
    }
  }

  /** A new script starts with an empty text. */
  lemma RenderWiden(escape: Escape, bins: seq<seq<Stmt>>)
    ensures RenderAll(escape, bins + [[]]) == RenderAll(escape, bins) + [""]
  {
    assert (bins + [[]])[..|bins|] == bins;
  }

  /** `build_commands`. */
  method BuildCommands(config: Config, escape: Escape, ann: seq<Line>) returns (bin: seq<string>)
    ensures bin == RenderAll(escape, Scripts(config.alt, ann))
  {
    bin := [""];
    var command := "";
    for i := 0 to |ann|
      invariant bin == RenderAll(escape, Scripts(config.alt, ann[..i]))
      invariant command == Pending(ann[..i])
    {
      PrefixSnoc(ann, i);
      bin, command := AddLine(config.alt, escape, ann[..i], bin, command, ann[i]);
    }
    assert ann[..|ann|] == ann;
  }

  /** One turn of the loop of `build_commands`: a new script at a `ConsoleHeader`, then the
      line's text added to the last script. */
  method AddLine(alt: map<string, string>, escape: Escape, ghost done: seq<Line>, bin: seq<string>,
                 command: string, x: Line)
    returns (bin': seq<string>, command': string)
    requires bin == RenderAll(escape, Scripts(alt, done)) && command == Pending(done)
    ensures bin' == RenderAll(escape, Scripts(alt, done + [x]))
    ensures command' == Pending(done + [x])
  {
    ghost var widened := if x.attr == ConsoleHeader then bin + [""] else bin;
    bin' := bin;
    if x.attr == ConsoleHeader {
      bin' := bin' + [""];
    }
    assert bin' == widened;
    var buf := bin'[|bin'| - 1];
    buf, command' := EmitLine(alt, escape, buf, command, x);
    bin' := bin'[|bin'| - 1 := buf];
    assert bin' == widened[|widened| - 1 := widened[|widened| - 1] + LineOutput(escape, alt, Pending(done), x)];
    RenderSnoc(escape, alt, done, x);
    PendingSnoc(done, x);
  }

  /** The lines a script echoes, in order. */
  function Echoes(stmts: seq<Stmt>): seq<string> {
    if stmts == [] then []
    else (if stmts[0].Echo? then [stmts[0].line] else []) + Echoes(stmts[1..])
  }

  /** The echoed lines of all scripts, script after script. */
  function AllEchoes(bins: seq<seq<Stmt>>): seq<string> {
    if bins == [] then [] else Echoes(bins[0]) + AllEchoes(bins[1..])
  }

  /** The texts of the lines of `ann` whose labels scripts echo. */
  function EchoedTexts(ann: seq<Line>): seq<string> {
    if ann == [] then []
    else EchoedTexts(ann[..|ann| - 1]) + if Echoed(ann[|ann| - 1].attr) then [ann[|ann| - 1].text] else []
  }

  lemma {:induction false} EchoedTextsAppend(a: seq<Line>, b: seq<Line>)
    ensures EchoedTexts(a + b) == EchoedTexts(a) + EchoedTexts(b)
  {
    if b != [] {
      var b' := b[..|b| - 1];
      assert (a + b)[..|a + b| - 1] == a + b';
      EchoedTextsAppend(a, b');
    } else {
      assert a + b == a;
    }
  }

  /** Inside a block the echoed lines are the lines that are not output. */
  lemma {:induction false} EchoedBody(body: seq<Line>)
    requires forall l :: l in body ==> InBody(l.attr)
    ensures EchoedTexts(body) == Texts(Kept(body))
  {
    if body != [] {
      var init := body[..|body| - 1];
      var x := body[|body| - 1];
      assert forall l :: l in init ==> l in body;
      EchoedBody(init);
      assert x in body;
      if x.attr != ConsoleOutput {
        TextsAppend(Kept(init), [x]);
      }
    }
  }

  lemma {:induction false} EchoesAppend(a: seq<Stmt>, b: seq<Stmt>)
    ensures Echoes(a + b) == Echoes(a) + Echoes(b)
  {
    if a != [] {
      assert (a + b)[1..] == a[1..] + b;
      EchoesAppend(a[1..], b);
    } else {
      assert a + b == b;
    }
  }

  lemma {:induction false} AllEchoesAppend(a: seq<seq<Stmt>>, b: seq<seq<Stmt>>)
    ensures AllEchoes(a + b) == AllEchoes(a) + AllEchoes(b)
  {
    if a != [] {
      assert (a + b)[1..] == a[1..] + b;
      AllEchoesAppend(a[1..], b);
    } else {
      assert a + b == b;
    }
  }

  lemma AllEchoesOne(b: seq<Stmt>)
    ensures AllEchoes([b]) == Echoes(b)
  {
    assert [b][1..] == [];
    assert Echoes(b) + [] == Echoes(b);
  }

  /** Adding statements to the last script adds their echoes at the end. */
  lemma AllEchoesAddToLast(bins: seq<seq<Stmt>>, stmts: seq<Stmt>)
    requires bins != []
    ensures AllEchoes(AddToLast(bins, stmts)) == AllEchoes(bins) + Echoes(stmts)
  {
    var n := |bins| - 1;
    var init, last := bins[..n], bins[n];
    calc {
      AllEchoes(AddToLast(bins, stmts));
      AllEchoes(init + [last + stmts]);
    == { AllEchoesAppend(init, [last + stmts]); AllEchoesOne(last + stmts); }
      AllEchoes(init) + Echoes(last + stmts);
    == { EchoesAppend(last, stmts); }
      AllEchoes(init) + Echoes(last) + Echoes(stmts);
    == { assert bins == init + [last]; AllEchoesAppend(init, [last]); AllEchoesOne(last); }
      AllEchoes(bins) + Echoes(stmts);
    }
  }

  /** A line's statements echo the line when its label is echoed, and nothing otherwise. */
  lemma LineEchoes(alt: map<string, string>, pending: string, x: Line)
    ensures Echoes(LineStmts(alt, pending, x)) == if Echoed(x.attr) then [x.text] else []
  {
    var stmts := LineStmts(alt, pending, x);
    if x.attr == ConsoleCommandEnd {
      assert stmts[1..][1..] == [];
      assert Echoes(stmts[1..]) == [] + Echoes([]);
      assert [x.text] + [] == [x.text];
    } else if Echoed(x.attr) {
      assert stmts[1..] == [];
      assert [x.text] + [] == [x.text];
    }
  }

  /** The scripts together echo exactly the header, continued header, comment, footer and command
      lines of the document, in document order; plain text, other fences and output contribute nothing. */
  lemma {:induction false} ScriptEchoes(alt: map<string, string>, ann: seq<Line>)
    ensures AllEchoes(Scripts(alt, ann)) == EchoedTexts(ann)
  {
    if ann == [] {
      AllEchoesOne([]);
    } else {
      var init := ann[..|ann| - 1];
      ScriptEchoes(alt, init);
      ScriptEchoesSnoc(alt, init, ann[|ann| - 1]);
      InitLast(ann);
    }
  }

  /** One more line keeps the scripts' echoes equal to the echoed lines. */
  lemma ScriptEchoesSnoc(alt: map<string, string>, init: seq<Line>, x: Line)
    requires AllEchoes(Scripts(alt, init)) == EchoedTexts(init)
    ensures AllEchoes(Scripts(alt, init + [x])) == EchoedTexts(init + [x])
  {
    var prev := Scripts(alt, init);
    var bins := if x.attr == ConsoleHeader then prev + [[]] else prev;
    var stmts := LineStmts(alt, Pending(init), x);
    calc {
      AllEchoes(Scripts(alt, init + [x]));
    == { ScriptsSnoc(alt, init, x); }
      AllEchoes(AddToLast(bins, stmts));
    == { AllEchoesAddToLast(bins, stmts); }
      AllEchoes(bins) + Echoes(stmts);
    == { if x.attr == ConsoleHeader { AllEchoesAppend(prev, [[]]); AllEchoesOne([]); } }
      AllEchoes(prev) + Echoes(stmts);
    == { LineEchoes(alt, Pending(init), x); }
      EchoedTexts(init) + (if Echoed(x.attr) then [x.text] else []);
    == { EchoedTextsSnoc(init, x); }
      EchoedTexts(init + [x]);
    }
  }

  /** One more line adds its text to the echoed lines when its label is echoed. */
  lemma EchoedTextsSnoc(ann: seq<Line>, x: Line)
    ensures EchoedTexts(ann + [x]) == EchoedTexts(ann) + (if Echoed(x.attr) then [x.text] else [])
  {
    SnocParts(ann, x);
  }

  /** A line that adds no statement leaves the scripts alone. */
  lemma AddNothing(bins: seq<seq<Stmt>>)
    requires bins != []
    ensures AddToLast(bins, []) == bins
  {
    assert bins[|bins| - 1] + [] == bins[|bins| - 1];
  }

  /** Stale output lines change neither the scripts nor the command being collected: the scripts
      built from a document and from its stripped form are the same. */
  lemma {:induction false} ScriptsOfKept(alt: map<string, string>, ann: seq<Line>)
    ensures Scripts(alt, Kept(ann)) == Scripts(alt, ann)
    ensures Pending(Kept(ann)) == Pending(ann)
  {
    if ann != [] {
      var init := ann[..|ann| - 1];
      var x := ann[|ann| - 1];
      InitLast(ann);
      ScriptsOfKept(alt, init);
      ScriptsSnoc(alt, init, x);
      PendingSnoc(init, x);
      if x.attr == ConsoleOutput {
        assert Kept(ann) == Kept(init);
        assert LineStmts(alt, Pending(init), x) == [];
        AddNothing(Scripts(alt, init));
      } else {
        var k := Kept(init);
        assert Kept(ann) == k + [x];
        SnocParts(k, x);
        ScriptsSnoc(alt, k, x);
        PendingSnoc(k, x);
      }
    }
  }

  /** Outside an unfinished command nothing is pending: in a labelling the classifier can
      produce, a command line is always followed by another command line or the line ending it. */
  lemma {:induction false} PendingClear(ann: seq<Line>, start: Attr)
    requires Chained(ann, start)
    requires ann != [] ==> ann[|ann| - 1].attr != ConsoleCommand
    ensures Pending(ann) == ""
  {
    if ann != [] && ann[|ann| - 1].attr != ConsoleCommandEnd {
      PendingClear(ann[..|ann| - 1], start);
    }
  }

  /** The command lines of `ann`, each without its prompt and followed by '\n'. */
  function Parts(ann: seq<Line>): string {
    if ann == [] then "" else Parts(ann[..|ann| - 1]) + CommandPart(ann[|ann| - 1].text)
  }

  /** Nothing is pending before the first line of a run of command lines. */
  lemma PendingBeforeRun(ann: seq<Line>, start: Attr, j: nat)
    requires Chained(ann, start)
    requires j <= |ann|
    requires j == 0 || ann[j - 1].attr != ConsoleCommand
    ensures Pending(ann[..j]) == ""
  {
    ChainedPrefix(ann, start, j);
    if j > 0 {
      assert ann[..j][j - 1] == ann[j - 1];
    }
    PendingClear(ann[..j], start);
  }

  /** Statements added to the last script end it. */
  lemma LastStmts(bins: seq<seq<Stmt>>, a: Stmt, b: Stmt)
    requires bins != []
    ensures var s := AddToLast(bins, [a, b]);
            var last := s[|s| - 1];
            |last| >= 2 && last[|last| - 2] == a && last[|last| - 1] == b
  {
  }

  /** The command collected when the line ending it is read is the run of command lines. */
  lemma CollectedCommand(ann: seq<Line>, start: Attr, j: nat, i: nat)
    requires Chained(ann, start)
    requires j <= i < |ann|
    requires forall k :: j <= k < i ==> ann[k].attr == ConsoleCommand
    requires j == 0 || ann[j - 1].attr != ConsoleCommand
    ensures Pending(ann[..i]) + CommandPart(ann[i].text) == Parts(ann[j..i + 1])
  {
    var run := ann[j..i];
    assert Pending(ann[..j]) == "" by {
      PendingBeforeRun(ann, start, j);
    }
    assert forall k :: 0 <= k < |run| ==> run[k].attr == ConsoleCommand by {
      forall k | 0 <= k < |run| ensures run[k].attr == ConsoleCommand {
        assert run[k] == ann[j + k];
      }
    }
    assert Pending(ann[..i]) == Parts(run) by {
      SplitAt(ann, j, i);
      PendingOfRun(ann[..j], run);
      assert "" + Parts(run) == Parts(run);
    }
    PartsSnoc(ann, j, i);
  }

  /** One more command line of a slice adds its part. */
  lemma PartsSnoc(ann: seq<Line>, j: nat, i: nat)
    requires j <= i < |ann|
    ensures Parts(ann[j..i + 1]) == Parts(ann[j..i]) + CommandPart(ann[i].text)
  {
    SliceSnoc(ann, j, i);
  }

  /** A run of command lines `j..i-1` ended at line `i` puts, after the echo of line `i`, one
      statement into the current script: the lines without their prompts, joined by '\n' and
      trimmed, replaced through the alt table; the collected command is cleared. */
  lemma CommandEmitted(alt: map<string, string>, ann: seq<Line>, start: Attr, j: nat, i: nat)
    requires Chained(ann, start)
    requires j <= i < |ann|
    requires forall k :: j <= k < i ==> ann[k].attr == ConsoleCommand
    requires ann[i].attr == ConsoleCommandEnd
    requires j == 0 || ann[j - 1].attr != ConsoleCommand
    ensures var s := Scripts(alt, ann[..i + 1]);
            var last := s[|s| - 1];
            |last| >= 2 && last[|last| - 2] == Echo(ann[i].text)
            && last[|last| - 1] == Run(Lookup(alt, Trim(Parts(ann[j..i + 1]))))
    ensures Pending(ann[..i + 1]) == ""
  {
    CollectedCommand(ann, start, j, i);
    PrefixSnoc(ann, i);
    EndStmts(alt, ann[..i], ann[i]);
  }

  /** The line ending a command adds its echo and then the command, and clears what was pending. */
  lemma EndStmts(alt: map<string, string>, pre: seq<Line>, x: Line)
    requires x.attr == ConsoleCommandEnd
    ensures var s := Scripts(alt, pre + [x]);
            var last := s[|s| - 1];
            |last| >= 2 && last[|last| - 2] == Echo(x.text)
            && last[|last| - 1] == Run(Lookup(alt, Trim(Pending(pre) + CommandPart(x.text))))
    ensures Pending(pre + [x]) == ""
  {
    ScriptsSnoc(alt, pre, x);
    PendingSnoc(pre, x);
    var command := Lookup(alt, Trim(Pending(pre) + CommandPart(x.text)));
    assert LineStmts(alt, Pending(pre), x) == [Echo(x.text), Run(command)];
    LastStmts(Scripts(alt, pre), Echo(x.text), Run(command));
  }

  /** Command lines collect onto what was pending before them. */
  lemma {:induction false} PendingOfRun(pre: seq<Line>, run: seq<Line>)
    requires forall k :: 0 <= k < |run| ==> run[k].attr == ConsoleCommand
    ensures Pending(pre + run) == Pending(pre) + Parts(run)
  {
    if run == [] {
      AppendEmpty(pre);
      AppendEmpty(Pending(pre));
    } else {
      var init, x := run[..|run| - 1], run[|run| - 1];
      PendingOfRun(pre, init);
      PendingRunStep(pre, init, x);
      InitLast(run);
    }
  }

  /** One more command line keeps `PendingOfRun` going. */
  lemma PendingRunStep(pre: seq<Line>, init: seq<Line>, x: Line)
    requires x.attr == ConsoleCommand
    requires Pending(pre + init) == Pending(pre) + Parts(init)
    ensures Pending(pre + (init + [x])) == Pending(pre) + Parts(init + [x])
  {
    var part := CommandPart(x.text);
    calc {
      Pending(pre + (init + [x]));
    == { AppendAssoc(pre, init, [x]); }
      Pending((pre + init) + [x]);
    == { PendingSnoc(pre + init, x); }
      Pending(pre + init) + part;
      (Pending(pre) + Parts(init)) + part;
    == { AppendAssoc(Pending(pre), Parts(init), part); }
      Pending(pre) + (Parts(init) + part);
    == { SnocParts(init, x); }
      Pending(pre) + Parts(init + [x]);
    }
  }

  /** "$ pytest" is collected as "pytest" and replaced through the alt table. */
  lemma AltCommandExample()
    ensures Lookup(map["pytest" := "pytest -q"], Trim("" + CommandPart("$ pytest"))) == "pytest -q"
  {
    assert StartsWith("$ pytest", "$ ");
    assert "$ pytest"[2..] == "pytest";
    var part := "pytest" + "\n";
    assert "" + CommandPart("$ pytest") == part;
    assert TrimStart(part) == part;
    assert part[..6] == "pytest";
    assert TrimEnd("pytest") == "pytest";
  }
}
