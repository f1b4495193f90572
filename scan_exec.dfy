/** `exec_commands` of src/scan.rs: the hook and block scripts run in a fixed order, with one
    success flag that every run can clear. */
module Execution {
  import opened Wrappers
  import opened Text
  import opened Classifier
  import opened Configuration

  /** What running one script gives: it ran, with its exit status and its standard output, or it
      could not be run at all (a temporary file or the process could not be created). */
  datatype RunOutcome = Ran(ok: bool, stdout: string) | Crashed(message: string)

  /** `Config::run` with the configuration fixed: the outcome of running `script`, given the
      scripts that ran before it (their effects on the file system may matter). */
  type Runner = (seq<string>, string) -> RunOutcome

  /** The scripts of the three runs each block makes: `pre_block`, the block, `post_block`. */
  function BlockRuns(hooks: Hooks, blocks: seq<string>): (r: seq<string>)
    ensures |r| == 3 * |blocks|
  {
    if blocks == [] then []
    else BlockRuns(hooks, blocks[..|blocks| - 1]) + [hooks.preBlock, blocks[|blocks| - 1], hooks.postBlock]
  }

  /** Every script `exec_commands` runs, in order. */
  function Schedule(hooks: Hooks, blocks: seq<string>): (r: seq<string>)
    ensures |r| == 3 * |blocks| + 2
  {
    [hooks.preFile] + BlockRuns(hooks, blocks) + [hooks.postFile]
  }

  /** The outcome of the `i`-th run of the schedule `s`. */
  function Outcome(run: Runner, s: seq<string>, i: nat): RunOutcome
    requires i < |s|
  {
    run(s[..i], s[i])
  }

  /** A run that exited successfully. */
  predicate Succeeded(o: RunOutcome) {
    o.Ran? && o.ok
  }

  /** The first run at or after `from` that could not be run. */
  function FirstCrash(run: Runner, s: seq<string>, from: nat): (r: Option<nat>)
    requires from <= |s|
    ensures r.Some? ==> from <= r.value < |s| && Outcome(run, s, r.value).Crashed?
                        && forall k :: from <= k < r.value ==> !Outcome(run, s, k).Crashed?
    ensures r.None? ==> forall k :: from <= k < |s| ==> !Outcome(run, s, k).Crashed?
    decreases |s| - from
  {
    if from == |s| then None
    else if Outcome(run, s, from).Crashed? then Some(from)
    else FirstCrash(run, s, from + 1)
  }

  /** Whether the first `n` runs could all be run. */
  predicate RanAll(run: Runner, s: seq<string>, n: nat)
    requires n <= |s|
  {
    n == 0 || (RanAll(run, s, n - 1) && Outcome(run, s, n - 1).Ran?)
  }

  lemma {:induction false} RanAllSpec(run: Runner, s: seq<string>, n: nat)
    requires n <= |s|
    ensures RanAll(run, s, n) <==> forall k :: 0 <= k < n ==> !Outcome(run, s, k).Crashed?
  {
    if n > 0 {
      RanAllSpec(run, s, n - 1);
    }
  }

  /** Whether every run of the schedule could be run. */
  predicate NoneCrashed(run: Runner, s: seq<string>) {
    forall k :: 0 <= k < |s| ==> !Outcome(run, s, k).Crashed?
  }

  /** Whether every run of the schedule, hooks included, exited successfully. */
  predicate AllSucceeded(run: Runner, s: seq<string>) {
    forall k :: 0 <= k < |s| ==> Succeeded(Outcome(run, s, k))
  }

  /** Whether the first `n` runs all succeeded. */
  function AllOk(run: Runner, s: seq<string>, n: nat): bool
    requires n <= |s|
  {
    n == 0 || (AllOk(run, s, n - 1) && Succeeded(Outcome(run, s, n - 1)))
  }

  /** The standard output of a run, or nothing when it could not be run. */
  function StdoutOf(o: RunOutcome): string {
    if o.Ran? then o.stdout else ""
  }

  /** The standard outputs of the first `k` block scripts, one after the other. */
  function BlockStdout(run: Runner, s: seq<string>, k: nat): string
    requires 3 * k <= |s|
  {
    if k == 0 then "" else BlockStdout(run, s, k - 1) + StdoutOf(Outcome(run, s, 3 * k - 1))
  }

  /** The output of one more block script. */
  lemma BlockStdoutNext(run: Runner, s: seq<string>, k: nat)
    requires 3 * k + 3 <= |s|
    ensures BlockStdout(run, s, k + 1) == BlockStdout(run, s, k) + StdoutOf(Outcome(run, s, 3 * k + 2))
  {
    assert 3 * (k + 1) - 1 == 3 * k + 2;
  }

  /** `exec_commands`: the first run that cannot be run ends everything with its error; otherwise
      the flag says whether every run succeeded and the text is the blocks' output. */
  function Exec(run: Runner, hooks: Hooks, blocks: seq<string>): Result<(bool, string), ScanError> {
    var s := Schedule(hooks, blocks);
    match FirstCrash(run, s, 0)
    case Some(i) => Err(RunnerFailed(Outcome(run, s, i).message))
    case None => Ok((AllOk(run, s, |s|), BlockStdout(run, s, |blocks|)))
  }

  /** The positions of the schedule: `pre_file` first, `post_file` last, and for block `k` its
      `pre_block`, the block itself and its `post_block` at 3k+1, 3k+2 and 3k+3. */
  lemma {:induction false} ScheduleShape(hooks: Hooks, blocks: seq<string>)
    ensures var s := Schedule(hooks, blocks);
            && s[0] == hooks.preFile && s[|s| - 1] == hooks.postFile
            && forall k :: 0 <= k < |blocks| ==>
                 s[3 * k + 1] == hooks.preBlock && s[3 * k + 2] == blocks[k] && s[3 * k + 3] == hooks.postBlock
  {
    BlockRunsShape(hooks, blocks);
  }

  lemma {:induction false} BlockRunsShape(hooks: Hooks, blocks: seq<string>)
    ensures var b := BlockRuns(hooks, blocks);
            forall k :: 0 <= k < |blocks| ==>
              b[3 * k] == hooks.preBlock && b[3 * k + 1] == blocks[k] && b[3 * k + 2] == hooks.postBlock
  {
    if blocks != [] {
      var init := blocks[..|blocks| - 1];
      BlockRunsShape(hooks, init);
      var b := BlockRuns(hooks, blocks);
      assert b == BlockRuns(hooks, init) + [hooks.preBlock, blocks[|blocks| - 1], hooks.postBlock];
      forall k | 0 <= k < |blocks|
        ensures b[3 * k] == hooks.preBlock && b[3 * k + 1] == blocks[k] && b[3 * k + 2] == hooks.postBlock
      {
        if k < |init| {
          assert init[k] == blocks[k];
        }
      }
    }
  }

  /** The flag is the conjunction of every run's success. */
  lemma {:induction false} AllOkSpec(run: Runner, s: seq<string>, n: nat)
    requires n <= |s|
    ensures AllOk(run, s, n) <==> forall k :: 0 <= k < n ==> Succeeded(Outcome(run, s, k))
  {
    if n > 0 {
      AllOkSpec(run, s, n - 1);
    }
  }

  /** `exec_commands` fails exactly when some run could not be run: a run that exits with an
      error does not stop the later ones, and an `Ok` flag is true exactly when all of them,
      hooks included, succeeded. */
  lemma ExecResult(run: Runner, hooks: Hooks, blocks: seq<string>)
    ensures var s := Schedule(hooks, blocks);
            (Exec(run, hooks, blocks).Ok? <==> NoneCrashed(run, s))
            && (Exec(run, hooks, blocks).Ok? ==> (Exec(run, hooks, blocks).value.0 <==> AllSucceeded(run, s)))
  {
    var s := Schedule(hooks, blocks);
    AllOkSpec(run, s, |s|);
    if FirstCrash(run, s, 0).Some? {
      var i := FirstCrash(run, s, 0).value;
      assert Outcome(run, s, i).Crashed?;
    }
  }

  /** `Config::run` around the runner: a run that cannot be run is an error and leaves the flag
      alone; a run that exits with an error clears the flag; the output is the run's stdout. */
  method RunScript(run: Runner, history: seq<string>, script: string, success: bool)
    returns (r: Result<string, ScanError>, success': bool)
    ensures run(history, script).Crashed? ==> r == Err(RunnerFailed(run(history, script).message)) && success' == success
    ensures run(history, script).Ran? ==> r == Ok(run(history, script).stdout)
                                          && success' == (success && run(history, script).ok)
  {
    var outcome := run(history, script);
    success' := success;
    if outcome.Crashed? {
      return Err(RunnerFailed(outcome.message)), success';
    }
    if !outcome.ok {
      success' := false;
    }
    r := Ok(outcome.stdout);
  }

  /** A run that cannot be run, after runs that all could, is the first crash. */
  lemma CrashAt(run: Runner, s: seq<string>, n: nat)
    requires n < |s| && Outcome(run, s, n).Crashed?
    requires RanAll(run, s, n)
    ensures FirstCrash(run, s, 0) == Some(n)
  {
    RanAllSpec(run, s, n);
  }

  /** When every run could be run there is no crash. */
  lemma NoCrash(run: Runner, s: seq<string>)
    requires RanAll(run, s, |s|)
    ensures FirstCrash(run, s, 0) == None
  {
    RanAllSpec(run, s, |s|);
  }

  /** One run of the schedule through `RunScript`: the history grows by the script, the flag
      by its success. */
  method RunNext(run: Runner, ghost s: seq<string>, ghost n: nat, history: seq<string>, script: string,
                 success: bool)
    returns (r: Result<string, ScanError>, history': seq<string>, success': bool)
    requires n < |s| && history == s[..n] && script == s[n]
    requires RanAll(run, s, n)
    requires success == AllOk(run, s, n)
    ensures history' == s[..n + 1]
    ensures r.Err? ==> Outcome(run, s, n).Crashed?
                       && r.error == RunnerFailed(Outcome(run, s, n).message)
                       && FirstCrash(run, s, 0) == Some(n)
    ensures r.Ok? ==> && Outcome(run, s, n).Ran? && r.value == Outcome(run, s, n).stdout
                      && RanAll(run, s, n + 1)
                      && success' == AllOk(run, s, n + 1)
  {
    r, success' := RunScript(run, history, script, success);
    history' := history + [script];
    PrefixSnoc(s, n);
    if r.Err? {
      CrashAt(run, s, n);
    }
  }

  /** The result of `exec_commands` when every run could be run. */
  lemma ExecSucceeds(run: Runner, hooks: Hooks, blocks: seq<string>)
    requires var s := Schedule(hooks, blocks); RanAll(run, s, |s|)
    ensures var s := Schedule(hooks, blocks);
            Exec(run, hooks, blocks) == Ok((AllOk(run, s, |s|), BlockStdout(run, s, |blocks|)))
  {
    NoCrash(run, Schedule(hooks, blocks));
  }

  /** The result of `exec_commands` once its first crash is known. */
  lemma ExecFails(run: Runner, hooks: Hooks, blocks: seq<string>, n: nat)
    requires var s := Schedule(hooks, blocks); n < |s| && FirstCrash(run, s, 0) == Some(n)
    ensures Exec(run, hooks, blocks) == Err(RunnerFailed(Outcome(run, Schedule(hooks, blocks), n).message))
  {
  }

  /** The body of the loop of `exec_commands` for block `k`: `pre_block`, the block, whose
      output is added to `buf`, and `post_block`. */
  method RunBlock(run: Runner, ghost s: seq<string>, hooks: Hooks, block: string, ghost k: nat,
                  history: seq<string>, success: bool, buf: string)
    returns (r: Result<string, ScanError>, history': seq<string>, success': bool)
    requires 3 * k + 4 < |s| && history == s[..3 * k + 1]
    requires s[3 * k + 1] == hooks.preBlock && s[3 * k + 2] == block && s[3 * k + 3] == hooks.postBlock
    requires RanAll(run, s, 3 * k + 1) && success == AllOk(run, s, 3 * k + 1)
    requires buf == BlockStdout(run, s, k)
    ensures r.Err? ==> var n := FirstCrash(run, s, 0);
                       n.Some? && r.error == RunnerFailed(Outcome(run, s, n.value).message)
    ensures r.Ok? ==> && history' == s[..3 * (k + 1) + 1] && RanAll(run, s, 3 * (k + 1) + 1)
                      && success' == AllOk(run, s, 3 * (k + 1) + 1)
                      && r.value == BlockStdout(run, s, k + 1)
  {
    var out;
    history', success' := history, success;
    out, history', success' := RunNext(run, s, 3 * k + 1, history', hooks.preBlock, success');
    if out.Err? {
      return Err(out.error), history', success';
    }
    out, history', success' := RunNext(run, s, 3 * k + 2, history', block, success');
    if out.Err? {
      return Err(out.error), history', success';
    }
    BlockStdoutNext(run, s, k);
    var buf' := buf + out.value;
    out, history', success' := RunNext(run, s, 3 * k + 3, history', hooks.postBlock, success');
    if out.Err? {
      return Err(out.error), history', success';
    }
    r := Ok(buf');
  }

  /** `exec_commands`. */
  method ExecCommands(config: Config, run: Runner, blocks: seq<string>)
    returns (r: Result<(bool, string), ScanError>)
    ensures r == Exec(run, config.hooks, blocks)
  {
    ghost var s := Schedule(config.hooks, blocks);
    assert s[0] == config.hooks.preFile && s[|s| - 1] == config.hooks.postFile;
    var success := true;
    var history: seq<string> := [];
    var out;
    out, history, success := RunNext(run, s, 0, history, config.hooks.preFile, success);
    if out.Err? {
      ExecFails(run, config.hooks, blocks, 0);
      return Err(out.error);
    }
    ScheduleShape(config.hooks, blocks);
    out, history, success := RunBlocks(run, s, config.hooks, blocks, history, success);
    if out.Err? {
      ExecFails(run, config.hooks, blocks, FirstCrash(run, s, 0).value);
      return Err(out.error);
    }
    var buf := out.value;
    assert |s| - 1 == 3 * |blocks| + 1;
    out, history, success := RunNext(run, s, |s| - 1, history, config.hooks.postFile, success);
    if out.Err? {
      ExecFails(run, config.hooks, blocks, |s| - 1);
      return Err(out.error);
    }
    ExecSucceeds(run, config.hooks, blocks);
    r := Ok((success, buf));
  }

  /** The loop of `exec_commands` over the blocks, after `pre_file`: the blocks' output, or the
      first run that could not be run. */
  method RunBlocks(run: Runner, ghost s: seq<string>, hooks: Hooks, blocks: seq<string>,
                   history: seq<string>, success: bool)
    returns (r: Result<string, ScanError>, history': seq<string>, success': bool)
    requires |s| == 3 * |blocks| + 2
    requires forall k :: 0 <= k < |blocks| ==>
               s[3 * k + 1] == hooks.preBlock && s[3 * k + 2] == blocks[k] && s[3 * k + 3] == hooks.postBlock
    requires history == s[..1] && RanAll(run, s, 1) && success == AllOk(run, s, 1)
    ensures r.Err? ==> var n := FirstCrash(run, s, 0);
                       n.Some? && r.error == RunnerFailed(Outcome(run, s, n.value).message)
    ensures r.Ok? ==> && history' == s[..3 * |blocks| + 1] && RanAll(run, s, |history'|)
                      && success' == AllOk(run, s, |history'|)
                      && r.value == BlockStdout(run, s, |blocks|)
  {
    history', success' := history, success;
    var buf := "";
    for k := 0 to |blocks|
      invariant history' == s[..3 * k + 1]
      invariant RanAll(run, s, 3 * k + 1)
      invariant success' == AllOk(run, s, 3 * k + 1)
      invariant buf == BlockStdout(run, s, k)
    {
      var out;
      out, history', success' := RunBlock(run, s, hooks, blocks[k], k, history', success', buf);
      if out.Err? {
        return Err(out.error), history', success';
      }
      buf := out.value;
    }
    r := Ok(buf);
  }
}
