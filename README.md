# exec-commands, modelled in Dafny

exec-commands refreshes the console blocks of Markdown documents. It classifies every line
of a document with a small state machine: plain text, other fences, console headers (with
`continued` ones), prompt lines `$ ` and `# ` with `\` continuation, indented `  #` comments,
footers, and stale output. It can strip the stale output. It can also build bash scripts that
echo the console blocks' own lines and run their commands (after alternative-command
substitution). There is always a leading script, for whatever precedes the first console header.
Each `ConsoleHeader` starts a new script, and a `continued` header adds its block to the script
before it, so there is one script more than there are `ConsoleHeader` lines. It runs those
scripts between the configured hooks and puts the scripts' output back in place of the blocks. The settings come from a configuration file: the alternative
commands, the newline-joined hook scripts, the working directory and the search path.

The project models that core, one module per concern:

- `Wrappers`: `Option` and `Result`.
- `Text`: the parts of Rust's `str` that the code relies on (`starts_with`, `trim`,
  `split_whitespace`, `lines`, `split`, `join`), with lemmas about them.
- `Configuration` (src/config.rs): `Config::from_raw` as the function `FromRaw`, and
  `compose_path` as the method `ComposePath` with its two loops.
- `Classifier` (src/scan.rs): `Attr`, `Attr::next` with the `parse_*` helpers, and
  `annotate_lines`. The fold is the function `Annotate`, and the method `AnnotateLines` builds the
  annotation with a loop.
- `OutputRemoval`: `remove_existing_command_outputs` is a loop proved against `Strip`.
- `CommandBuilder`: the scripts of `build_commands` are values (`Echo` and `Run` statements per
  script, built by `Scripts`) and are rendered to text. The method `BuildCommands` keeps the
  vector of scripts and the `command` accumulator the way the source does, and is proved equal to
  the rendered `Scripts`.
- `Execution`: `exec_commands`. The method `ExecCommands` threads the success flag and the output
  buffer through a loop over the scripts. It is proved equal to `Exec`, which is defined over the
  run schedule: `pre_file`, then `pre_block`, the script and `post_block` for each script, then
  `post_file`. The leading script is one of these, so a document with no console block still
  runs `pre_block`, the empty script and `post_block` once, and `n` plain headers give `n + 1`
  hook-wrapped runs.
- `Merging`: `merge_outputs` reads the output through a cursor and is proved equal to `Merge`.
- `Refresh`: `insert_command_outputs`, composed from the four steps.

Running a script (`Run::run`) is an oracle of type `Runner`. It receives the scripts run before
and the script itself, and answers either `Ran(ok, stdout)` or `Crashed(message)`. `Crashed` stands
for the run's hard I/O errors, which `?` propagates; the panics inside `Run::run` are not among
them (see "## Left out"). Passing the history lets the runner's answer
depend on the order of the runs. `shell_escape::escape` is the function parameter `escape`.
`std::fs::canonicalize`, the current directory and the `PATH` variable are parameters of the
configuration functions. The panics of the source (`unwrap` on `canonicalize`, and the `assert!`
and `unwrap` at the start of each block in `merge_outputs`) are modelled as error values: `None`
in the configuration and `Panicked` in the merge.

Where the behaviour and a retelling of it might differ, the model follows the code:

- A hook or block that exits with an error stops nothing. It only clears the shared flag
  (src/scan.rs:189). Only at the end does `insert_command_outputs` turn a false flag into an error.
- Prompts may be `# ` as well as `$ `.
- A `continued` header adds to the script of the block before it.
- Without a `path` key the search path is empty, and not the environment's `PATH`.

The properties proved include:

- the classification rules, both at the top level and inside a block;
- that stripping keeps exactly the non-output lines, in order, and is idempotent;
- that stale output changes nothing: refreshing a document and refreshing it stripped give the same
  result for every runner;
- the number of scripts and what they echo;
- the command emitted at each command end;
- the run order and how the flag is built from every run;
- that an `Ok` refresh always carries `true`;
- that the refresh gives back the stripped document when three conditions hold: every run, hooks
  included, succeeds and each block script prints exactly what it echoes; every footer is exactly
  "```"; and no command line is a bare "```".

## Model

| member | source | states |
|---|---|---|
| Configuration.AltMap | src/config.rs:99-103 | the keys of the alternative-command map are exactly the `raw` fields of the list |
| Configuration.AltMapLastWins | src/config.rs:99-103 | for a duplicated `raw`, the map holds the `alt` of its last entry |
| Configuration.Resolved | src/config.rs:78-81 | canonicalising the components succeeds iff every component can be resolved; the results keep the components' number and order |
| Configuration.ComposePath | src/config.rs:76-94 | the method with its two loops computes `ComposedPath`: each resolved component followed by ':', then the environment's `PATH`, or `None` when a component cannot be resolved |
| Configuration.ComposedPathComponents | src/config.rs:76-94 | the composed path ends with the environment's `PATH` after a ':', and splitting what comes before at ':' gives back the canonical components in order |
| Configuration.FromRaw | src/config.rs:97-139 | the configuration exists iff `pwd` and every `path` component can be resolved; `pwd` is the canonical configured value, or else the current directory; `path` is the composed path, or else ""; `alt` is the map of the list, or else empty; the hooks are the joined lists |
| Configuration.HookScriptLines | src/config.rs:120-128 | the `pre_block` script is its list joined with '\n': when no command holds a '\n', splitting the script at '\n' gives the list back (the other three hooks are built by the same `HookScript`) |
| Configuration.NoHooksConfigured | src/config.rs:120-131 | with no `hooks` section, or with a section whose lists are all absent, all four hook scripts are "" |
| Configuration.DefaultConfig | src/config.rs:58-69 | `Config::default` takes the current directory, the environment's `PATH` or "" when it is not set, no alternative command and four empty hooks; `PathDefaultDiffers` sets it against `from_raw` |
| Configuration.PathDefaultDiffers | src/config.rs:113-117 | without a `path` key the search path is "", which differs from the default configuration's search path when the environment's `PATH` is not empty |
| Text.TrimSpec | src/scan.rs:140 | `trim` removes exactly the leading and trailing whitespace, and the trimmed text is a slice of the original |
| Text.TokensSpec | src/scan.rs:45 | every word of `split_whitespace` is nonempty and holds no whitespace |
| Text.TokensSkip | src/scan.rs:45 | whitespace before the first word plays no part in the split |
| Text.TokensWord | src/scan.rs:45 | a word that ends the text or is followed by whitespace is the first word of the split, and the split goes on with the rest; with `TokensSkip` this fixes which words there are and their order for every text |
| Text.LinesOfUnlines | src/scan.rs:215 | lines that hold no '\n', each written out with a '\n', are read back by `lines` to the same lines |
| Text.UnlinesOfLines | src/scan.rs:95-101 | a text that is empty or ends with '\n' is what its `lines` give, each followed by '\n' |
| Text.SplitOfJoin | src/config.rs:122 | a nonempty list of parts that hold no separator, joined by it, splits back to the same parts |
| Text.JoinOfSplit | src/config.rs:79 | splitting a text at a separator and joining the parts with it gives the text back |
| Classifier.ClassifyBetweenBlocks | src/scan.rs:35-50 | from `BaseText`, `ConsoleFooter` or `OthersFooter`: a line not starting with "```" is `BaseText`; a fence whose trimmed rest does not start with "console" is `OthersHeader`; otherwise the line opens a console block, and it is `ConsoleHeaderContd` iff a word after the first is "continued" |
| Classifier.ClassifyInsideBlock | src/scan.rs:52-70 | after `ConsoleCommand` every line continues the command, and is `ConsoleCommand` iff it ends with '\'; elsewhere in a block, a `$ ` or `# ` line is a command (the same test for '\'); then `  #` gives `ConsoleComment`, "```" gives `ConsoleFooter`, and anything else `ConsoleOutput` |
| Classifier.NextByParser | src/scan.rs:25-33 | states handled by the same parser classify every line alike |
| Classifier.Next | src/scan.rs:25-33 | `Attr::next` dispatches on the previous label, and its result is always one of the transitions of the machine: text and other fences from the top level, block lines or a footer from inside a block, command lines after a continued command, and the contents or the end of another fence |
| Classifier.ParseBaseText | src/scan.rs:35-50 | outside any fence a line is plain text, another fence's header or a console header; the full case table is `ClassifyBetweenBlocks` |
| Classifier.ParseCommandContinued | src/scan.rs:52-57 | a command line is either continued or a command end; which one is stated in `ClassifyInsideBlock` |
| Classifier.ParseCommand | src/scan.rs:59-70 | inside a console block a line is a command, comment or output line, or the footer; the full case table is `ClassifyInsideBlock` |
| Classifier.ParseOthers | src/scan.rs:72-78 | inside another kind of fence a line is content or that fence's footer; which one is stated in `ClassifyInsideOtherFence` |
| Classifier.ClassifyInsideOtherFence | src/scan.rs:72-78 | inside another kind of fence, a line is that fence's footer iff it starts with "```", whatever follows the backticks, and content otherwise |
| Classifier.ConsoleFenceInsideOtherFence | src/scan.rs:25-78 | "```console" inside another kind of fence closes that fence instead of opening a console block, and the next line is read by the top-level parser as plain text |
| Classifier.OutputFollowsCommandParser | src/scan.rs:59-70 | only a state classified by `parse_command` can be followed by a `ConsoleOutput` line |
| Classifier.HeaderText | src/scan.rs:35-50 | a line that opens a console block starts with "```" and is not exactly "```" |
| Classifier.PlainHeaderExample | src/scan.rs:35-50 | "```console" after text opens a console block that starts a new script |
| Classifier.ContinuedHeaderExample | src/scan.rs:40-46 | "``` console continued" after a footer is a continued header: the blanks after the backticks are trimmed |
| Classifier.OtherFenceExample | src/scan.rs:40-43 | "```continued console" is another kind of fence, because the rest must start with "console" |
| Classifier.PromptExamples | src/scan.rs:59-62 | "# whoami" is a finished command, and "$ ls \" continues on the next line |
| Classifier.FenceExamples | src/scan.rs:52-68 | "```" continues a command after a continued command, and is a footer elsewhere in a block |
| Classifier.CommentExamples | src/scan.rs:59-69 | a line starting with exactly two spaces and '#' is a comment, with or without a blank after the '#' ("  # note", "  #note") |
| Classifier.OneSpaceOutputExample | src/scan.rs:59-69 | one space before the '#' (" # note") makes output, not a comment |
| Classifier.ThreeSpacesOutputExample | src/scan.rs:59-69 | three spaces before the '#' ("   # note") make output, not a comment |
| Classifier.HashOutputExample | src/scan.rs:59-69 | "#" with no blank after it ("#no space") is neither a prompt nor a comment, so it is output |
| Classifier.Annotate | src/scan.rs:81-89 | the annotation has one entry per line, holding that line's text |
| Classifier.AnnotateSnoc | src/scan.rs:83-87 | one more line adds one entry, labelled by `Next` from the label before it |
| Classifier.TextsOfAnnotate | src/scan.rs:81-89 | the texts of the annotation are the document's lines |
| Classifier.AnnotateFollows | src/scan.rs:81-89 | the first line's label is `Next` from `BaseText`, and every later label is `Next` from the label before it |
| Classifier.AnnotateChained | src/scan.rs:81-89 | consecutive labels are transitions of the machine, and every header line is a fence other than exactly "```" |
| Classifier.AnnotateLines | src/scan.rs:81-89 | the loop that pushes labelled lines gives the fold of `Next` over the document's lines, starting from `BaseText` |
| Classifier.OutputInsideBlock | src/scan.rs:59-70 | every block line (a command, comment or output line) follows a console header with only block lines in between, so no line outside a console block is ever output |
| OutputRemoval.KeptMembers | src/scan.rs:95-98 | the kept lines are exactly the lines that are not `ConsoleOutput` |
| OutputRemoval.KeptWithoutOutput | src/scan.rs:95-98 | with no output line, every line is kept |
| OutputRemoval.RemoveExistingCommandOutputs | src/scan.rs:91-103 | the loop's buffer is the kept lines in order, each followed by exactly one '\n' (`Strip`) |
| OutputRemoval.StripStep | src/scan.rs:95-101 | an output line adds nothing to the buffer, and any other line adds its text and '\n' |
| OutputRemoval.StripLines | src/scan.rs:91-103 | the lines of the stripped document are the texts of the kept lines of its annotation |
| OutputRemoval.KeptReannotates | src/scan.rs:81-103 | annotating the kept lines again gives them their old labels: removing output changes no other line's label |
| OutputRemoval.StripIdempotent | src/scan.rs:91-103 | stripping a stripped document leaves it unchanged |
| OutputRemoval.StripWithoutOutput | src/scan.rs:91-103 | a document that ends with '\n' (or is empty) and has no output line is left unchanged |
| CommandBuilder.LookupUnlisted | src/scan.rs:140-147 | a command that no `alt` entry of the configuration lists as its `raw` runs as it is |
| CommandBuilder.LookupListed | src/scan.rs:140-147 | a command listed as the `raw` of an `alt` entry runs as the `alt` of the last entry with that `raw` (through `AltMapLastWins`) |
| CommandBuilder.StripPrompt | src/scan.rs:129-133 | a line starting with "$ " or "# " is that two-character prompt followed by the result; any other line is left as it is |
| CommandBuilder.Scripts | src/scan.rs:112-119 | there is one script more than there are `ConsoleHeader` lines, so a continued header adds to the script before it |
| CommandBuilder.ScriptsSnoc | src/scan.rs:116-151 | one more line adds a new script only when it is a `ConsoleHeader`, and then adds the line's statements to the last script |
| CommandBuilder.PendingSnoc | src/scan.rs:126-150 | one more line updates the collected command: a command line adds its text without the prompt and with '\n', and a command end clears it |
| CommandBuilder.EchoCommand | src/scan.rs:105-110 | the `echo` line reads back as its parts: "echo ", then the escaped line, then a final '\n'; what a whole line contributes is `LineText` |
| CommandBuilder.LineText | src/scan.rs:105-110 | the text of a line's statements is `echo `, the escaped line and '\n' for each echo, then the command and '\n' for a command end |
| CommandBuilder.LineEchoes | src/scan.rs:122-138 | header, continued header, comment, footer and command lines are echoed, each by its own text; output, plain text and other fences add nothing |
| CommandBuilder.EmitLine | src/scan.rs:121-150 | the method adds to the last script exactly what the line contributes, and updates the collected command as `PendingSnoc` says |
| CommandBuilder.RenderSnoc | src/scan.rs:116-151 | the rendered scripts of one more line are the old ones, widened by an empty script at a `ConsoleHeader`, with the line's text added to the last one |
| CommandBuilder.AddLine | src/scan.rs:116-151 | one turn of the loop keeps the scripts equal to the rendered `Scripts` of the lines so far, and the accumulator equal to the collected command |
| CommandBuilder.BuildCommands | src/scan.rs:112-153 | the loop returns the rendered `Scripts` of the annotation |
| CommandBuilder.ScriptEchoes | src/scan.rs:112-138 | the lines all scripts echo, in order, are the echoed lines of the document |
| CommandBuilder.EchoedBody | src/scan.rs:122-138 | the block lines of a block echo exactly their kept lines |
| CommandBuilder.ScriptsOfKept | src/scan.rs:112-153 | removing the output lines changes neither the scripts nor the collected command |
| CommandBuilder.PendingOfRun | src/scan.rs:126-136 | a run of `ConsoleCommand` lines adds its parts, in order, to the collected command |
| CommandBuilder.PendingClear | src/scan.rs:139-150 | unless the last line is a `ConsoleCommand`, nothing is collected |
| CommandBuilder.PendingBeforeRun | src/scan.rs:139-150 | nothing is collected before a run of command lines starts |
| CommandBuilder.CollectedCommand | src/scan.rs:126-136 | at each command line, the collected command and the line's part are the parts of the run so far |
| CommandBuilder.EndStmts | src/scan.rs:139-150 | at a command end, the last script ends with the echo of the line and the substituted command, trimmed, and the collected command is cleared |
| CommandBuilder.CommandEmitted | src/scan.rs:139-150 | at each command end, the last script ends with the echo of the line followed by exactly one command: the run's lines without prompts, joined with '\n', trimmed, and substituted from the map; the accumulator is then empty |
| CommandBuilder.AltCommandExample | src/scan.rs:140-147 | "$ pytest" with the entry "pytest" → "pytest -q" runs "pytest -q" |
| Execution.BlockRuns | src/scan.rs:201-208 | each block adds three runs |
| Execution.Schedule | src/scan.rs:196-212 | a file with `n` blocks makes `3n + 2` runs |
| Execution.ScheduleShape | src/scan.rs:196-212 | the runs are `pre_file`, then `pre_block`, the block and `post_block` for each block in order, then `post_file` |
| Execution.BlockRunsShape | src/scan.rs:201-208 | the runs of block `k` are `pre_block`, the block and `post_block` |
| Execution.FirstCrash | src/scan.rs:196-212 | the first run, from a position on, whose runner fails; `None` when none fails |
| Execution.RanAllSpec | src/scan.rs:196-212 | the first `n` runs all ran iff no runner before `n` failed |
| Execution.AllOkSpec | src/scan.rs:180-190 | the flag after `n` runs is true iff each of those runs succeeded |
| Execution.BlockStdoutNext | src/scan.rs:204-205 | the output buffer grows by the standard output of each block script, and only by that |
| Execution.ExecResult | src/scan.rs:196-212 | the execution is `Ok` iff no runner fails (`NoneCrashed`: no run of the schedule crashed); then its flag is true iff every run, hooks included, succeeded (`AllSucceeded`), so a failed run stops nothing |
| Execution.ExecSucceeds | src/scan.rs:196-212 | when every run ran, the result is the conjunction of all successes and the block scripts' output in order |
| Execution.ExecFails | src/scan.rs:196-212 | a failing runner makes the execution fail with the message of the first failure |
| Execution.RunScript | src/scan.rs:159-194 | a run either fails and leaves the flag as it was, or gives its output and clears the flag when the script exited with an error |
| Execution.RunNext | src/scan.rs:200-209 | one run in the schedule extends the history by its script; it fails only at the first failure of the schedule, and otherwise keeps the flag equal to the successes so far |
| Execution.RunBlock | src/scan.rs:201-208 | one block's three runs keep the history, the flag and the output buffer on the schedule, or fail with the first failure |
| Execution.RunBlocks | src/scan.rs:201-208 | the loop over the blocks gives the block scripts' output in order, keeping the flag, or fails with the first failure |
| Execution.ExecCommands | src/scan.rs:196-212 | the method with its shared flag and buffer returns `Exec` |
| Merging.BlockLen | src/scan.rs:222-229 | a console block takes the output lines up to and including the first line equal to "```", or all of them when there is none |
| Merging.CopyBlock | src/scan.rs:222-229 | the inner loop copies exactly those lines, each with '\n', and moves the cursor past them |
| Merging.MergeOutputs | src/scan.rs:214-238 | the loop with its cursor into the output returns `Merge` over the output's lines |
| Merging.MergeUnfold | src/scan.rs:218-235 | at a header the merge fails unless the next output line starts with "```", and otherwise copies one block of output; at plain text or other fences it copies the line; at any other line it copies nothing |
| Merging.MergeCons | src/scan.rs:218-235 | the same, for the first line of an annotation |
| Merging.MergeSkip | src/scan.rs:231-234 | block lines and footers of the annotation are never copied |
| Merging.MergeOfKept | src/scan.rs:231-234 | the output lines of the annotation play no part in the merge |
| Merging.MergeFailsByPanic | src/scan.rs:220 | the merge can only fail by the panic at a header |
| Merging.BodyLen | src/scan.rs:214-238 | the number of block lines that follow a header, up to the first line that is not a block line |
| Merging.FenceEndsBlock | src/scan.rs:226-228 | output whose block holds no bare "```" until its footer ends the block there |
| Merging.OpenBlockMerge | src/scan.rs:219-229 | a last block that is never closed takes all remaining output |
| Merging.MergeEchoes | src/scan.rs:214-238 | merging the lines the scripts echo, when no command or comment line is a bare "```" and every footer is exactly "```", gives the document without its output lines |
| Refresh.InsertCommandOutputs | src/scan.rs:240-251 | the four steps give `Insert`, and an `Ok` result carries `true` |
| Refresh.InsertFlag | src/scan.rs:244-250 | the refresh fails with the flag error iff every run ran (`NoneCrashed`) and not every run, hook or block, succeeded (`AllSucceeded`); an `Ok` result always carries `true` |
| Refresh.RefreshIgnoresStaleOutput | src/scan.rs:240-251 | refreshing a document and refreshing it stripped give the same result, for every runner |
| Refresh.RefreshedOfKept | src/scan.rs:240-251 | once the document is annotated, its output lines play no part in the refresh |
| Refresh.QuietStdout | src/scan.rs:201-208 | when each block script prints exactly what it echoes, the blocks' output is the echoed lines of all scripts |
| Refresh.QuietExec | src/scan.rs:196-212 | under such a runner, when every run also succeeds, the execution succeeds with the echoed lines |
| Refresh.EchoedTextsIn | src/scan.rs:83 | every echoed line is a line of the document, so it holds no '\n' |
| Refresh.QuietRefresh | src/scan.rs:240-251 | under such a runner, and when no command or comment line is a bare "```" and every footer is exactly "```", the refresh gives back the document without its old output |

## Left out

- `Run::run` (src/scan.rs:159-194) is not modelled: its temporary file, the bash process, the
  `set -eu -o pipefail` prelude with `PATH` and `cd`, and its message on standard error. The
  `Runner` oracle stands for it, and `RunScript` models only how its result and the flag are
  combined. Its three panics on a failed run are not modelled either: `status.code().unwrap()`
  (src/scan.rs:184) when bash is ended by a signal, and the two `from_utf8(..).unwrap()` calls
  (src/scan.rs:186-187) when that run's standard error or standard output is not valid UTF-8.
  `Crashed` stands only for the errors that `?` propagates.
- Decoding the output as UTF-8 and its `unwrap` (src/scan.rs:205): outputs are strings already.
- `shell_escape::escape` is the parameter `escape`. What the shell prints for an echoed line is
  part of the runner. `Quiet` states as a hypothesis that each block script prints exactly its
  echoed lines.
- What the commands print is left to the runner. A command that prints a bare "```" line ends
  its block early in `merge_outputs`, and the model does not reason about such output.
- `str::lines` also drops a '\r' before each '\n'. The model splits at '\n' only.
- Refresh.QuietRefresh: it assumes `ExactFences` as well as `Quiet`, and the two cases that
  `ExactFences` excludes break the round trip in opposite ways. A footer such as "````" is echoed,
  but it is not equal to "```", so it does not end the block in `merge_outputs`, which goes on into
  the next script's output. A continued command line that reads "```" is echoed too, and since it
  is equal to "```" it ends the block early, before the real footer. For such documents the
  refresh does not give back the stripped text, and the lemma does not cover them.
- The panics of `compose_pwd` and `compose_path` (`canonicalize(..).unwrap()`, src/config.rs:73
  and 80) are the `None` of `FromRaw` and `ComposedPath`. The `unwrap` of `current_dir` and of
  `to_str` (src/config.rs:60, 85, 109) cannot fail in the model: the current directory is a
  parameter and paths are strings.
- `load_config` (src/config.rs:142-159): the YAML parsing and the glob expansion of `inputs`. The
  model starts from the parsed `RawConfig` and does not use `inputs`.
- src/main.rs (the command line, globbing files, the pager, reading and writing the files) and
  src/diff.rs (printing a coloured diff) are I/O and are not part of this model.
