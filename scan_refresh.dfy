/** `insert_command_outputs` of src/scan.rs: annotate the document, build its scripts (a leading
    one, then one per `ConsoleHeader`, with each `continued` block added to the script before it),
    run them between the hooks, and put the scripts' output back in place of the blocks. */
module Refresh {
  import opened Wrappers
  import opened Text
  import opened Classifier
  import opened Configuration
  import opened OutputRemoval
  import opened CommandBuilder
  import opened Execution
  import opened Merging

  /** The refreshed document and the flag, or the first error: a run that cannot be run, a run
      that exited with an error (`BlocksFailed`), or the panic of the merge. */
  function Insert(doc: string, config: Config, escape: Escape, run: Runner): Result<(bool, string), ScanError> {
    Refreshed(Annotate(Lines(doc), BaseText), config, escape, run)
  }

  /** `Insert` once the document is annotated. */
  function Refreshed(ann: seq<Line>, config: Config, escape: Escape, run: Runner): Result<(bool, string), ScanError> {
    var blocks := RenderAll(escape, Scripts(config.alt, ann));
    match Exec(run, config.hooks, blocks)
    case Err(e) => Err(e)
    case Ok((success, outputs)) =>
      if !success then Err(BlocksFailed)
      else
        match Merge(ann, Lines(outputs))
        case Err(e) => Err(e)
        case Ok(text) => Ok((true, text))
  }

  /** `insert_command_outputs`, from the four steps. */
  method InsertCommandOutputs(doc: string, config: Config, escape: Escape, run: Runner)
    returns (r: Result<(bool, string), ScanError>)
    ensures r == Insert(doc, config, escape, run)
    ensures r.Ok? ==> r.value.0
  {
    var ann := AnnotateLines(doc);
    var commands := BuildCommands(config, escape, ann);
    var executed := ExecCommands(config, run, commands);
    if executed.Err? {
      return Err(executed.error);
    }
    var (success, outputs) := executed.value;
    if !success {
      return Err(BlocksFailed);
    }
    var output := MergeOutputs(ann, outputs);
    if output.Err? {
      return Err(output.error);
    }
    r := Ok((success, output.value));
  }

  /** The refresh fails with `BlocksFailed` exactly when every run could be run and one of them,
      hook or block, exited with an error; it never returns a false flag. */
  lemma InsertFlag(doc: string, config: Config, escape: Escape, run: Runner)
    ensures var ann := Annotate(Lines(doc), BaseText);
            var s := Schedule(config.hooks, RenderAll(escape, Scripts(config.alt, ann)));
            var r := Insert(doc, config, escape, run);
            && (r == Err(BlocksFailed) <==> NoneCrashed(run, s) && !AllSucceeded(run, s))
            && (r.Ok? ==> r.value.0)
  {
    var ann := Annotate(Lines(doc), BaseText);
    var blocks := RenderAll(escape, Scripts(config.alt, ann));
    var s := Schedule(config.hooks, blocks);
    ExecResult(run, config.hooks, blocks);
    var e := Exec(run, config.hooks, blocks);
    if e.Ok? && e.value.0 {
      MergeFailsByPanic(ann, Lines(e.value.1));
    }
    assert Insert(doc, config, escape, run) == Refreshed(ann, config, escape, run);
  }

  /** Refreshing a document and refreshing it with its old output removed give the same result,
      for every runner: the stale output plays no part. */
  lemma RefreshIgnoresStaleOutput(doc: string, config: Config, escape: Escape, run: Runner)
    ensures Insert(Strip(doc), config, escape, run) == Insert(doc, config, escape, run)
  {
    var ann := Annotate(Lines(doc), BaseText);
    assert Annotate(Lines(Strip(doc)), BaseText) == Kept(ann) by {
      StripLines(doc);
      KeptReannotates(Lines(doc), BaseText);
    }
    RefreshedOfKept(ann, config, escape, run);
  }

  /** The output lines of an annotation play no part in its refresh. */
  lemma RefreshedOfKept(ann: seq<Line>, config: Config, escape: Escape, run: Runner)
    ensures Refreshed(Kept(ann), config, escape, run) == Refreshed(ann, config, escape, run)
  {
    ScriptsOfKept(config.alt, ann);
    var e := Exec(run, config.hooks, RenderAll(escape, Scripts(config.alt, ann)));
    if e.Ok? {
      MergeOfKept(ann, Lines(e.value.1));
    }
  }

  /** The runner's outputs under which the refresh should change nothing: every run succeeds and
      each block script prints exactly the lines it echoes, one per line. */
  ghost predicate Quiet(run: Runner, hooks: Hooks, escape: Escape, bins: seq<seq<Stmt>>) {
    var s := Schedule(hooks, RenderAll(escape, bins));
    && (forall k :: 0 <= k < |s| ==> Succeeded(Outcome(run, s, k)))
    && (forall k :: 0 <= k < |bins| ==> BlockOutput(run, s, k) == Unlines(Echoes(bins[k])))
  }

  /** The standard output of the script of block `k` in the schedule `s`. */
  function BlockOutput(run: Runner, s: seq<string>, k: nat): string
    requires 3 * k + 2 < |s|
  {
    StdoutOf(Outcome(run, s, 3 * k + 2))
  }

  /** Under a quiet runner the blocks' output is the echoed lines of all scripts. */
  lemma {:induction false} QuietStdout(run: Runner, s: seq<string>, bins: seq<seq<Stmt>>, n: nat)
    requires n <= |bins|
    requires 3 * |bins| < |s|
    requires forall k :: 0 <= k < |bins| ==> BlockOutput(run, s, k) == Unlines(Echoes(bins[k]))
    ensures BlockStdout(run, s, n) == Unlines(AllEchoes(bins[..n]))
  {
    if n > 0 {
      QuietStdout(run, s, bins, n - 1);
      QuietStdoutStep(run, s, bins, n);
    }
  }

  /** One more block keeps `QuietStdout` going. */
  lemma QuietStdoutStep(run: Runner, s: seq<string>, bins: seq<seq<Stmt>>, n: nat)
    requires 0 < n <= |bins| && 3 * |bins| < |s|
    requires BlockStdout(run, s, n - 1) == Unlines(AllEchoes(bins[..n - 1]))
    requires BlockOutput(run, s, n - 1) == Unlines(Echoes(bins[n - 1]))
    ensures BlockStdout(run, s, n) == Unlines(AllEchoes(bins[..n]))
  {
    var init, last := bins[..n - 1], bins[n - 1];
    calc {
      BlockStdout(run, s, n);
      BlockStdout(run, s, n - 1) + StdoutOf(Outcome(run, s, 3 * n - 1));
    == { assert 3 * n - 1 == 3 * (n - 1) + 2; }
      Unlines(AllEchoes(init)) + Unlines(Echoes(last));
    == { UnlinesAppend(AllEchoes(init), Echoes(last)); }
      Unlines(AllEchoes(init) + Echoes(last));
    == { AllEchoesSnoc(bins, n); }
      Unlines(AllEchoes(bins[..n]));
    }
  }

  /** The echoed lines of the first `n` scripts, the last one apart. */
  lemma AllEchoesSnoc(bins: seq<seq<Stmt>>, n: nat)
    requires 0 < n <= |bins|
    ensures AllEchoes(bins[..n]) == AllEchoes(bins[..n - 1]) + Echoes(bins[n - 1])
  {
    var init, last := bins[..n - 1], bins[n - 1];
    assert bins[..n] == init + [last];
    AllEchoesAppend(init, [last]);
    assert AllEchoes([last]) == Echoes(last) + AllEchoes([]);
    assert Echoes(last) + [] == Echoes(last);
  }

  /** The echoed lines are lines of the document, so none of them holds a '\n'. */
  lemma {:induction false} EchoedTextsIn(ann: seq<Line>)
    ensures forall t :: t in EchoedTexts(ann) ==> exists l :: l in ann && l.text == t
  {
    if ann != [] {
      var init := ann[..|ann| - 1];
      EchoedTextsIn(init);
      assert forall l :: l in init ==> l in ann;
      assert ann[|ann| - 1] in ann;
    }
  }

  /** A quiet runner lets every run succeed and prints the echoed lines of every script. */
  lemma QuietExec(run: Runner, hooks: Hooks, escape: Escape, bins: seq<seq<Stmt>>)
    requires Quiet(run, hooks, escape, bins)
    ensures Exec(run, hooks, RenderAll(escape, bins)) == Ok((true, Unlines(AllEchoes(bins))))
  {
    var blocks := RenderAll(escape, bins);
    var s := Schedule(hooks, blocks);
    ExecResult(run, hooks, blocks);
    QuietStdout(run, s, bins, |bins|);
    assert bins[..|bins|] == bins;
  }

  /** With a quiet runner, refreshing a document whose footers are exactly "```" gives the
      document back without its old output: the scripts print what the blocks hold. */
  lemma QuietRefresh(doc: string, config: Config, escape: Escape, run: Runner)
    requires var ann := Annotate(Lines(doc), BaseText);
             Quiet(run, config.hooks, escape, Scripts(config.alt, ann)) && ExactFences(ann)
    ensures Insert(doc, config, escape, run) == Ok((true, Strip(doc)))
  {
    var ann := Annotate(Lines(doc), BaseText);
    var echoed := EchoedTexts(ann);
    assert Exec(run, config.hooks, RenderAll(escape, Scripts(config.alt, ann))) == Ok((true, Unlines(echoed))) by {
      QuietExec(run, config.hooks, escape, Scripts(config.alt, ann));
      ScriptEchoes(config.alt, ann);
    }
    assert Lines(Unlines(echoed)) == echoed by {
      EchoedTextsIn(ann);
      LinesOfUnlines(echoed);
    }
    assert Merge(ann, echoed) == Ok(Strip(doc)) by {
      AnnotateChained(Lines(doc), BaseText);
      MergeEchoes(ann, BaseText);
    }
  }
}
