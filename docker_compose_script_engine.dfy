/**
 * `DockerComposeScriptEngine`: one `eval` runs `docker-compose up` once in the working
 * directory, maps its exit code to the result, and in `finally` always attempts
 * `docker-compose down` in the same directory, deletes the compose file unless it is kept,
 * and removes the shutdown hook when one was installed. The `up` and `down` command lines
 * come from `DockerComposeCommandCreator`, which is not part of this model; they are
 * inputs here, as is the compose file name.
 */
module DockerComposeEngine {
  import opened Wrappers
  import opened ProcessModel
  import opened ScriptBindings
  import opened DockerComposeProperties

  /** What the outside world answers in one `eval`: the file write, `up`, then `down`. */
  datatype ComposeWorld = ComposeWorld(writeOk: bool, up: Outcome, down: Outcome)

  /**
   * The end of the `try` block: its events, how it was left, the compose file when it was
   * written (`composeYamlFile`), and whether the shutdown hook was installed.
   */
  datatype ComposeTry = ComposeTry(events: seq<Event>, exit: TryExit, written: Option<FilePath>, hook: bool)

  /**
   * The `try` block in the working directory `dir`: write the compose file (a failure is
   * caught), start `up` (a failure to start is caught before the hook exists), install the
   * hook, wait; an interrupted wait is caught, a nonzero exit throws, a zero exit is
   * returned.
   */
  function ComposeTryBlock(dir: string, yamlFileName: string, upArgv: Argv, w: ComposeWorld): ComposeTry {
    if !w.writeOk then ComposeTry([], Caught, None, false)
    else
      var path := FilePath(dir, yamlFileName);
      var launched := [WriteFile(path), Launch(ComposeUp, upArgv, Some(dir))];
      match w.up
      case IOFail => ComposeTry(launched, Caught, Some(path), false)
      case Interrupted => ComposeTry(launched + [HookAdded], Caught, Some(path), true)
      case Exit(n) =>
        ComposeTry(launched + [HookAdded], if n != 0 then Thrown(ComposeFailed(n)) else Returned(n), Some(path), true)
  }

  /**
   * The `finally` block: reset the interrupt flag and attempt `down` in the same directory
   * (whatever that throws is caught, so its outcome does not appear), delete the compose
   * file when it was written and is not kept, remove the hook when it was installed.
   */
  function ComposeFinally(dir: string, downArgv: Argv, written: Option<FilePath>, hook: bool, keep: bool): seq<Event> {
    [ClearInterrupt, Launch(ComposeDown, downArgv, Some(dir))]
    + (if written.Some? && !keep then [DeleteFile(written.value)] else [])
    + (if hook then [HookRemoved] else [])
  }

  /** The `composeDirectory` field after an `eval`, what the `eval` did, and its result. */
  datatype ComposeEvaluation = ComposeEvaluation(directory: Option<string>, events: seq<Event>, result: EvalResult)

  /**
   * `eval(script, context)` on an engine whose `composeDirectory` is `current`, with the
   * engine-scope bindings `b`, the settings `cfg` and the fresh temporary directory
   * `tempDir`. A scratch binding that is not a string fails its cast before the `try`.
   */
  function ComposeEval(current: Option<string>, b: Bindings, cfg: DockerComposeSettings, tempDir: string,
                       yamlFileName: string, upArgv: Argv, downArgv: Argv, w: ComposeWorld): ComposeEvaluation
  {
    var dir := ScratchDirectory(current, b, tempDir);
    if dir.Faulted? then ComposeEvaluation(dir.value, [], Crash(dir.fault))
    else
      var t := ComposeTryBlock(dir.value.value, yamlFileName, upArgv, w);
      ComposeEvaluation(dir.value, t.events + ComposeFinally(dir.value.value, downArgv, t.written, t.hook, cfg.keepDockerFile),
        TryResult(t.exit))
  }

  /** The engine object; `composeDirectory` is its only field that an `eval` changes. */
  class DockerComposeScriptEngine {
    var composeDirectory: Option<string>
    /** What the engine did to the outside world so far, oldest first. */
    var log: seq<Event>

    constructor ()
      ensures composeDirectory == None && log == []
    {
      composeDirectory := None;
      log := [];
    }

    /** `stopAndRemoveContainers`: start `down` in the working directory. */
    method StopAndRemoveContainers(downArgv: Argv)
      modifies this`log
      ensures log == old(log) + [Launch(ComposeDown, downArgv, composeDirectory)]
    {
      log := log + [Launch(ComposeDown, downArgv, composeDirectory)];
    }

    /**
     * The working directory: the scratch binding when it holds a non-null string, else the
     * fresh temporary directory; a scratch binding of another type fails its cast.
     */
    method ResolveComposeDirectory(b: Bindings, tempDir: string) returns (fault: Option<Fault>)
      modifies this`composeDirectory
      ensures var d := ScratchDirectory(old(composeDirectory), b, tempDir);
        composeDirectory == d.value && (fault.None? <==> d.Resolved?) && (fault.Some? ==> fault.value == d.fault)
    {
      var localSpace: Option<string> := None;
      if DS_SCRATCH_BINDING_NAME in b {
        match b[DS_SCRATCH_BINDING_NAME]
        case Text(s) =>
          localSpace := Some(s);
        case Null =>
        case _ =>
          return Some(BadBinding(DS_SCRATCH_BINDING_NAME));
      }
      if localSpace.Some? {
        composeDirectory := localSpace;
      } else {
        composeDirectory := Some(tempDir);
      }
      fault := None;
    }

    /** The `try` block; see `ComposeTryBlock`. */
    method TryBlockSteps(yamlFileName: string, upArgv: Argv, w: ComposeWorld)
      returns (composeYamlFile: Option<FilePath>, hookInstalled: bool, exit: TryExit)
      requires composeDirectory.Some?
      modifies this`log
      ensures var t := ComposeTryBlock(composeDirectory.value, yamlFileName, upArgv, w);
        log == old(log) + t.events && composeYamlFile == t.written && hookInstalled == t.hook && exit == t.exit
    {
      composeYamlFile, hookInstalled, exit := None, false, Caught;
      if !w.writeOk {
        return;
      }
      ghost var start := log;
      composeYamlFile := Some(FilePath(composeDirectory.value, yamlFileName));
      log := log + [WriteFile(composeYamlFile.value)];
      log := log + [Launch(ComposeUp, upArgv, composeDirectory)];
      ghost var launched := [WriteFile(composeYamlFile.value), Launch(ComposeUp, upArgv, composeDirectory)];
      AppendAssoc(start, [WriteFile(composeYamlFile.value)], [Launch(ComposeUp, upArgv, composeDirectory)]);
      if !w.up.Started() {
        return;
      }
      log := log + [HookAdded];
      AppendAssoc(start, launched, [HookAdded]);
      hookInstalled := true;
      if w.up.Exit? {
        var exitValue := w.up.code;
        if exitValue != 0 {
          exit := Thrown(ComposeFailed(exitValue));
        } else {
          exit := Returned(exitValue);
        }
      }
    }

    /** The `finally` block; see `ComposeFinally`. */
    method FinallyBlock(downArgv: Argv, composeYamlFile: Option<FilePath>, hookInstalled: bool, keep: bool)
      requires composeDirectory.Some?
      modifies this`log
      ensures log == old(log) + ComposeFinally(composeDirectory.value, downArgv, composeYamlFile, hookInstalled, keep)
    {
      ghost var start := log;
      ghost var attempted := [ClearInterrupt, Launch(ComposeDown, downArgv, composeDirectory)];
      ghost var deleted := if composeYamlFile.Some? && !keep then [DeleteFile(composeYamlFile.value)] else [];
      ghost var removed := if hookInstalled then [HookRemoved] else [];
      log := log + [ClearInterrupt];
      StopAndRemoveContainers(downArgv);
      AppendAssoc(start, [ClearInterrupt], [Launch(ComposeDown, downArgv, composeDirectory)]);
      if composeYamlFile.Some? && !keep {
        log := log + [DeleteFile(composeYamlFile.value)];
      }
      assert log == start + attempted + deleted;
      if hookInstalled {
        log := log + [HookRemoved];
      }
      assert log == start + attempted + deleted + removed;
      AppendAssoc(start, attempted, deleted);
      AppendAssoc(start, attempted + deleted, removed);
    }

    /** `eval`; see `ComposeEval`. */
    method Eval(b: Bindings, cfg: DockerComposeSettings, tempDir: string, yamlFileName: string,
                upArgv: Argv, downArgv: Argv, w: ComposeWorld)
      returns (r: EvalResult)
      modifies this
      ensures var e := ComposeEval(old(composeDirectory), b, cfg, tempDir, yamlFileName, upArgv, downArgv, w);
        composeDirectory == e.directory && log == old(log) + e.events && r == e.result
    {
      var fault := ResolveComposeDirectory(b, tempDir);
      if fault.Some? {
        return Crash(fault.value);
      }
      ghost var start := log;
      var composeYamlFile, hookInstalled, exit := TryBlockSteps(yamlFileName, upArgv, w);
      ghost var t := ComposeTryBlock(composeDirectory.value, yamlFileName, upArgv, w);
      FinallyBlock(downArgv, composeYamlFile, hookInstalled, cfg.keepDockerFile);
      AppendAssoc(start, t.events, ComposeFinally(composeDirectory.value, downArgv, t.written, t.hook, cfg.keepDockerFile));
      r := TryResult(exit);
    }
  }
}
