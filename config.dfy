/** The settings a scan runs with (src/config.rs): the mapping from a parsed
    configuration file (`RawConfig`) to the resolved `Config`, and the
    assembly of the command search path. The file system (`canonicalize`),
    the current directory and the `PATH` environment variable are inputs. */
module Configuration {
  import opened Wrappers
  import opened Text

  /** One `alt` entry: the command as written in the document and the command run instead. */
  datatype AltCommand = AltCommand(raw: string, alt: string)

  /** The `hooks` section; each list is optional. */
  datatype RawHooks = RawHooks(
    preBlock: Option<seq<string>>,
    postBlock: Option<seq<string>>,
    preFile: Option<seq<string>>,
    postFile: Option<seq<string>>)

  /** A configuration file as parsed; every key is optional. */
  datatype RawConfig = RawConfig(
    inputs: Option<seq<string>>,
    pwd: Option<string>,
    path: Option<string>,
    alt: Option<seq<AltCommand>>,
    hooks: Option<RawHooks>)

  /** The four hook scripts, each the configured commands one per line. */
  datatype Hooks = Hooks(preBlock: string, postBlock: string, preFile: string, postFile: string)

  /** The resolved settings: working directory, search path, alternative commands, hooks. */
  datatype Config = Config(pwd: string, path: string, alt: map<string, string>, hooks: Hooks)

  /** `std::fs::canonicalize`, which fails (`None`) on a path that cannot be resolved. */
  type Canonicalize = string -> Option<string>

  /** `Hooks::default()`. */
  const NoHooks := Hooks("", "", "", "")

  /** `std::env::var("PATH").unwrap_or_default()`. */
  function EnvValue(envPath: Option<string>): string {
    if envPath.Some? then envPath.value else ""
  }

  /** `Config::default()`: the current directory, the environment's search path (or "" when it is
      not set), no alternative commands and no hooks. */
  function DefaultConfig(currentDir: string, envPath: Option<string>): (r: Config)
    ensures r.pwd == currentDir
    ensures envPath.Some? ==> r.path == envPath.value
    ensures envPath.None? ==> r.path == ""
    ensures r.alt.Keys == {}
    ensures r.hooks.preBlock == "" && r.hooks.postBlock == "" && r.hooks.preFile == "" && r.hooks.postFile == ""
  {
    Config(currentDir, EnvValue(envPath), map[], NoHooks)
  }

  /** The `alt` list collected into a map; a later entry for the same `raw` overwrites an earlier one. */
  function AltMap(alts: seq<AltCommand>): (m: map<string, string>)
    ensures m.Keys == set a | a in alts :: a.raw
  {
    if alts == [] then map[]
    else
      var init := alts[..|alts| - 1];
      var last := alts[|alts| - 1];
      assert forall a :: a in alts <==> a in init || a == last;
      AltMap(init)[last.raw := last.alt]
  }

  /** The value for a key is the `alt` of the last entry with that `raw`. */
  lemma {:induction false} AltMapLastWins(alts: seq<AltCommand>, i: nat)
    requires i < |alts|
    requires forall j :: i < j < |alts| ==> alts[j].raw != alts[i].raw
    ensures alts[i].raw in AltMap(alts) && AltMap(alts)[alts[i].raw] == alts[i].alt
  {
    if i < |alts| - 1 {
      var init := alts[..|alts| - 1];
      assert init[i] == alts[i];
      AltMapLastWins(init, i);
    }
  }

  /** One hook list as a script: its commands joined with '\n'; an absent list is the empty script. */
  function HookScript(commands: Option<seq<string>>): string {
    if commands.Some? then Join(commands.value, '\n') else ""
  }

  /** The `hooks` section as four scripts; no section means four empty scripts. */
  function HooksOf(raw: Option<RawHooks>): Hooks {
    if raw.Some? then
      Hooks(HookScript(raw.value.preBlock), HookScript(raw.value.postBlock),
            HookScript(raw.value.preFile), HookScript(raw.value.postFile))
    else NoHooks
  }

  /** Every part canonicalised, in order; `None` as soon as one cannot be (where the source's `unwrap` panics). */
  function Resolved(parts: seq<string>, canonicalize: Canonicalize): (r: Option<seq<string>>)
    ensures r.Some? <==> forall i :: 0 <= i < |parts| ==> canonicalize(parts[i]).Some?
    ensures r.Some? ==> |r.value| == |parts|
                        && forall i :: 0 <= i < |parts| ==> r.value[i] == canonicalize(parts[i]).value
  {
    if parts == [] then Some([])
    else
      var init := Resolved(parts[..|parts| - 1], canonicalize);
      var last := canonicalize(parts[|parts| - 1]);
      if init.None? || last.None? then None else Some(init.value + [last.value])
  }

  /** The search path `compose_path` builds: each ':'-separated component canonicalised and followed
      by ':', then the environment's `PATH` unchanged; `None` when a component cannot be resolved. */
  function ComposedPath(path: string, canonicalize: Canonicalize, envPath: Option<string>): Option<string> {
    var dirs := Resolved(Split(path, ':'), canonicalize);
    if dirs.None? then None else Some(Join(dirs.value, ':') + ":" + EnvValue(envPath))
  }

  /** `compose_path`, with its two loops. */
  method ComposePath(path: string, canonicalize: Canonicalize, envPath: Option<string>) returns (r: Option<string>)
    ensures r == ComposedPath(path, canonicalize, envPath)
  {
    var parts := Split(path, ':');
    var dirs: seq<string> := [];
    for i := 0 to |parts|
      invariant Resolved(parts[..i], canonicalize) == Some(dirs)
    {
      assert parts[..i + 1][..i] == parts[..i];
      var dir := canonicalize(parts[i]);
      if dir.None? {
        return None;
      }
      dirs := dirs + [dir.value];
    }
    assert parts[..|parts|] == parts;
    var buf := "";
    for i := 0 to |dirs|
      invariant i > 0 ==> buf == Join(dirs[..i], ':') + ":"
      invariant i == 0 ==> buf == ""
    {
      if i > 0 {
        assert dirs[..i + 1] == dirs[..i] + [dirs[i]];
        JoinSnoc(dirs[..i], dirs[i], ':');
      } else {
        assert dirs[..1] == [dirs[0]];
      }
      buf := buf + dirs[i] + ":";
    }
    assert dirs[..|dirs|] == dirs;
    buf := buf + EnvValue(envPath);
    return Some(buf);
  }

  /** `Config::from_raw`; `None` where resolving the configured `pwd` or a `path` component panics. */
  function FromRaw(raw: RawConfig, canonicalize: Canonicalize, currentDir: string, envPath: Option<string>): (r: Option<Config>)
    ensures r.Some? <==> (raw.pwd.None? || canonicalize(raw.pwd.value).Some?)
                         && (raw.path.None? || ComposedPath(raw.path.value, canonicalize, envPath).Some?)
    ensures r.Some? ==> r.value.pwd == if raw.pwd.Some? then canonicalize(raw.pwd.value).value else currentDir
    ensures r.Some? && raw.path.None? ==> r.value.path == ""
    ensures r.Some? && raw.path.Some? ==> Some(r.value.path) == ComposedPath(raw.path.value, canonicalize, envPath)
    ensures r.Some? && raw.alt.None? ==> r.value.alt == map[]
    ensures r.Some? && raw.alt.Some? ==> r.value.alt == AltMap(raw.alt.value)
    ensures r.Some? ==> r.value.hooks == HooksOf(raw.hooks)
  {
    var alt := if raw.alt.Some? then AltMap(raw.alt.value) else map[];
    var pwd := if raw.pwd.Some? then canonicalize(raw.pwd.value) else Some(currentDir);
    var path := if raw.path.Some? then ComposedPath(raw.path.value, canonicalize, envPath) else Some("");
    if pwd.None? || path.None? then None
    else Some(Config(pwd.value, path.value, alt, HooksOf(raw.hooks)))
  }

  /** A hook list is recovered line by line from its script (when no command holds a '\n'),
      and an absent list or section gives the empty script. */
  lemma HookScriptLines(raw: Option<RawHooks>, commands: seq<string>)
    requires raw.Some? && raw.value.preBlock == Some(commands)
    requires commands != [] && forall c :: c in commands ==> '\n' !in c
    ensures Split(HooksOf(raw).preBlock, '\n') == commands
  {
    SplitOfJoin(commands, '\n');
  }

  /** With no `hooks` section, or with a section whose lists are all absent, every hook script is empty. */
  lemma NoHooksConfigured(raw: Option<RawHooks>)
    requires raw.None? || (raw.value.preBlock.None? && raw.value.postBlock.None?
                           && raw.value.preFile.None? && raw.value.postFile.None?)
    ensures HooksOf(raw) == Hooks("", "", "", "")
  {
  }

  /** The composed path lists the canonical directories, each followed by ':', then the environment's
      `PATH`; splitting its head at ':' gives the directories back when none contains ':'. */
  lemma {:induction false} ComposedPathComponents(path: string, canonicalize: Canonicalize, envPath: Option<string>)
    requires ComposedPath(path, canonicalize, envPath).Some?
    requires forall d :: d in Resolved(Split(path, ':'), canonicalize).value ==> ':' !in d
    ensures var p := ComposedPath(path, canonicalize, envPath).value;
            var e := EnvValue(envPath);
            var dirs := Resolved(Split(path, ':'), canonicalize).value;
            && |p| > |e| && p[|p| - |e|..] == e && p[|p| - |e| - 1] == ':'
            && Split(p[..|p| - |e| - 1], ':') == dirs
  {
    var dirs := Resolved(Split(path, ':'), canonicalize).value;
    var e := EnvValue(envPath);
    var head := Join(dirs, ':');
    var p := head + ":" + e;
    assert ComposedPath(path, canonicalize, envPath).value == p;
    assert p[..|p| - |e| - 1] == head;
    SplitOfJoin(dirs, ':');
  }

  /** Without a `path` key the search path is empty, whereas `Config::default()` takes the environment's. */
  lemma PathDefaultDiffers(raw: RawConfig, canonicalize: Canonicalize, currentDir: string, envPath: Option<string>)
    requires raw.path.None? && EnvValue(envPath) != ""
    requires FromRaw(raw, canonicalize, currentDir, envPath).Some?
    ensures FromRaw(raw, canonicalize, currentDir, envPath).value.path != DefaultConfig(currentDir, envPath).path
  {
  }
}
