/**
 * What one `eval` of the docker-compose engine guarantees: where it runs, what it returns,
 * that `down` is always attempted and cannot change the result, and how the compose file
 * and the shutdown hook are cleaned up.
 */
module DockerComposeEvalProperties {
  import opened Wrappers
  import opened ProcessModel
  import opened ScriptBindings
  import opened DockerComposeProperties
  import opened DockerComposeEngine

  /** `ev` occurs somewhere in `events`. */
  predicate Occurs(events: seq<Event>, ev: Event) {
    exists i :: 0 <= i < |events| && events[i] == ev
  }

  /**
   * `events[k]` resets the interrupt flag, `events[k + 1]` launches `down` in `dir`, and no
   * other event launches `down`.
   */
  predicate DownOnlyAfter(events: seq<Event>, k: int, downArgv: Argv, dir: Option<string>) {
    && 0 <= k < |events| - 1
    && events[k] == ClearInterrupt
    && events[k + 1] == Launch(ComposeDown, downArgv, dir)
    && forall j | 0 <= j < |events| && events[j].Launch? && events[j].verb == ComposeDown :: j == k + 1
  }

  /** The scratch binding makes the working directory unknowable: it is neither absent, null nor a string. */
  predicate BadScratch(b: Bindings) {
    DS_SCRATCH_BINDING_NAME in b && !(b[DS_SCRATCH_BINDING_NAME].Null? || b[DS_SCRATCH_BINDING_NAME].Text?)
  }

  /** The directory an `eval` with a usable scratch binding runs in. */
  function WorkingDirectory(b: Bindings, tempDir: string): string {
    if DS_SCRATCH_BINDING_NAME in b && b[DS_SCRATCH_BINDING_NAME].Text? then b[DS_SCRATCH_BINDING_NAME].s else tempDir
  }

  /** Where the compose file is written. */
  function ComposeFile(b: Bindings, tempDir: string, yamlFileName: string): FilePath {
    FilePath(WorkingDirectory(b, tempDir), yamlFileName)
  }

  /** An `eval` past the directory choice is its `try` block followed by its `finally` block. */
  lemma EvalOfParts(current: Option<string>, b: Bindings, cfg: DockerComposeSettings, tempDir: string,
                    yamlFileName: string, upArgv: Argv, downArgv: Argv, w: ComposeWorld)
    requires !BadScratch(b)
    ensures var dir := WorkingDirectory(b, tempDir);
      var t := ComposeTryBlock(dir, yamlFileName, upArgv, w);
      ComposeEval(current, b, cfg, tempDir, yamlFileName, upArgv, downArgv, w)
        == ComposeEvaluation(Some(dir), t.events + ComposeFinally(dir, downArgv, t.written, t.hook, cfg.keepDockerFile),
             TryResult(t.exit))
  {
  }

  /**
   * The working directory is the scratch string when there is one, else the fresh
   * temporary directory; both `up` and `down` run in it. A scratch binding of another type
   * ends the call with a runtime exception before anything happens, and the field keeps
   * its value.
   */
  lemma ComposeDirectory(current: Option<string>, b: Bindings, cfg: DockerComposeSettings, tempDir: string,
                         yamlFileName: string, upArgv: Argv, downArgv: Argv, w: ComposeWorld)
    ensures var e := ComposeEval(current, b, cfg, tempDir, yamlFileName, upArgv, downArgv, w);
      && (e.result.Crash? <==> BadScratch(b))
      && (e.result.Crash? ==> e.events == [] && e.directory == current && e.result.fault == BadBinding(DS_SCRATCH_BINDING_NAME))
      && (!e.result.Crash? ==> e.directory == Some(WorkingDirectory(b, tempDir)))
      && (forall i | 0 <= i < |e.events| && e.events[i].Launch? :: e.events[i].dir == e.directory)
  {
    var e := ComposeEval(current, b, cfg, tempDir, yamlFileName, upArgv, downArgv, w);
    if !BadScratch(b) {
      var dir := WorkingDirectory(b, tempDir);
      var t := ComposeTryBlock(dir, yamlFileName, upArgv, w);
      var f := ComposeFinally(dir, downArgv, t.written, t.hook, cfg.keepDockerFile);
      EvalOfParts(current, b, cfg, tempDir, yamlFileName, upArgv, downArgv, w);
      forall i | 0 <= i < |e.events| && e.events[i].Launch?
        ensures e.events[i].dir == Some(dir)
      {
        if i < |t.events| {
          assert e.events[i] == t.events[i];
        } else {
          assert e.events[i] == f[i - |t.events|];
        }
      }
    }
  }

  /**
   * A zero exit of `up` returns 0, a nonzero exit throws a ScriptException carrying the
   * code, and a failed write, a failed start or an interrupted wait returns null. `down`
   * has no say in any of it.
   */
  lemma ComposeResult(current: Option<string>, b: Bindings, cfg: DockerComposeSettings, tempDir: string,
                      yamlFileName: string, upArgv: Argv, downArgv: Argv, w: ComposeWorld)
    requires !BadScratch(b)
    ensures var e := ComposeEval(current, b, cfg, tempDir, yamlFileName, upArgv, downArgv, w);
      && (e.result.Ret? ==> e.result.value == 0)
      && (e.result == Ret(0) <==> w.writeOk && w.up == Exit(0))
      && (e.result.ScriptErr? <==> w.writeOk && w.up.Exit? && w.up.code != 0)
      && (e.result.ScriptErr? ==> e.result.failure == ComposeFailed(w.up.code))
      && (e.result == RetNull <==> !w.writeOk || !w.up.Exit?)
      && !e.result.Crash?
  {
  }

  /** Changing what `down` does changes nothing in the `eval`: its exceptions are caught and its exit code unread. */
  lemma DownOutcomeIgnored(current: Option<string>, b: Bindings, cfg: DockerComposeSettings, tempDir: string,
                           yamlFileName: string, upArgv: Argv, downArgv: Argv, w: ComposeWorld, o: Outcome)
    ensures ComposeEval(current, b, cfg, tempDir, yamlFileName, upArgv, downArgv, w)
         == ComposeEval(current, b, cfg, tempDir, yamlFileName, upArgv, downArgv, w.(down := o))
  {
  }

  /**
   * On every path past the directory choice, whether the write failed, `up` failed to
   * start, was interrupted or exited with any code, `down` is launched exactly once, right
   * after the interrupt flag is reset, in the working directory.
   */
  lemma DownAlwaysAttempted(current: Option<string>, b: Bindings, cfg: DockerComposeSettings, tempDir: string,
                            yamlFileName: string, upArgv: Argv, downArgv: Argv, w: ComposeWorld)
    requires !BadScratch(b)
    ensures var e := ComposeEval(current, b, cfg, tempDir, yamlFileName, upArgv, downArgv, w);
      exists k :: DownOnlyAfter(e.events, k, downArgv, e.directory)
  {
    var e := ComposeEval(current, b, cfg, tempDir, yamlFileName, upArgv, downArgv, w);
    var dir := WorkingDirectory(b, tempDir);
    var t := ComposeTryBlock(dir, yamlFileName, upArgv, w);
    var f := ComposeFinally(dir, downArgv, t.written, t.hook, cfg.keepDockerFile);
    EvalOfParts(current, b, cfg, tempDir, yamlFileName, upArgv, downArgv, w);
    var k := |t.events|;
    assert e.events[k] == f[0] && e.events[k + 1] == f[1];
    forall j | 0 <= j < |e.events| && e.events[j].Launch? && e.events[j].verb == ComposeDown
      ensures j == k + 1
    {
      if j >= k {
        assert e.events[j] == f[j - k];
      }
    }
    assert DownOnlyAfter(e.events, k, downArgv, e.directory);
  }

  /**
   * The compose file is written, and `up` launched right after it, exactly when the write
   * succeeds; the write precedes every launch.
   */
  lemma UpFollowsWrite(current: Option<string>, b: Bindings, cfg: DockerComposeSettings, tempDir: string,
                       yamlFileName: string, upArgv: Argv, downArgv: Argv, w: ComposeWorld)
    requires !BadScratch(b)
    ensures var e := ComposeEval(current, b, cfg, tempDir, yamlFileName, upArgv, downArgv, w);
      && (Occurs(e.events, WriteFile(ComposeFile(b, tempDir, yamlFileName))) <==> w.writeOk)
      && (Occurs(e.events, Launch(ComposeUp, upArgv, e.directory)) <==> w.writeOk)
      && (w.writeOk ==> e.events[0] == WriteFile(ComposeFile(b, tempDir, yamlFileName)) && e.events[1] == Launch(ComposeUp, upArgv, e.directory))
  {
    var e := ComposeEval(current, b, cfg, tempDir, yamlFileName, upArgv, downArgv, w);
    var dir := WorkingDirectory(b, tempDir);
    var path := FilePath(dir, yamlFileName);
    var t := ComposeTryBlock(dir, yamlFileName, upArgv, w);
    var f := ComposeFinally(dir, downArgv, t.written, t.hook, cfg.keepDockerFile);
    EvalOfParts(current, b, cfg, tempDir, yamlFileName, upArgv, downArgv, w);
    if w.writeOk {
      assert e.events[0] == WriteFile(path);
      assert e.events[1] == Launch(ComposeUp, upArgv, e.directory);
    } else {
      assert e.events == f;
      assert !Occurs(e.events, WriteFile(path)) by {
        forall i | 0 <= i < |e.events| ensures e.events[i] != WriteFile(path) { }
      }
      assert !Occurs(e.events, Launch(ComposeUp, upArgv, e.directory)) by {
        forall i | 0 <= i < |e.events| ensures e.events[i] != Launch(ComposeUp, upArgv, e.directory) { }
      }
    }
  }

  /**
   * The compose file is deleted exactly when it was written and is not kept, and what is
   * deleted is the file that was written.
   */
  lemma ComposeFileDeletion(current: Option<string>, b: Bindings, cfg: DockerComposeSettings, tempDir: string,
                            yamlFileName: string, upArgv: Argv, downArgv: Argv, w: ComposeWorld)
    requires !BadScratch(b)
    ensures var e := ComposeEval(current, b, cfg, tempDir, yamlFileName, upArgv, downArgv, w);
      && (Occurs(e.events, DeleteFile(ComposeFile(b, tempDir, yamlFileName))) <==> w.writeOk && !cfg.keepDockerFile)
      && (forall i | 0 <= i < |e.events| && e.events[i].DeleteFile? :: e.events[i].path == ComposeFile(b, tempDir, yamlFileName))
  {
    var e := ComposeEval(current, b, cfg, tempDir, yamlFileName, upArgv, downArgv, w);
    var dir := WorkingDirectory(b, tempDir);
    var path := FilePath(dir, yamlFileName);
    var t := ComposeTryBlock(dir, yamlFileName, upArgv, w);
    var f := ComposeFinally(dir, downArgv, t.written, t.hook, cfg.keepDockerFile);
    EvalOfParts(current, b, cfg, tempDir, yamlFileName, upArgv, downArgv, w);
    forall i | 0 <= i < |e.events| && e.events[i].DeleteFile?
      ensures e.events[i].path == path
    {
      if i < |t.events| {
        assert e.events[i] == t.events[i];
      } else {
        assert e.events[i] == f[i - |t.events|];
      }
    }
    if w.writeOk && !cfg.keepDockerFile {
      assert e.events[|t.events| + 2] == DeleteFile(path);
    } else {
      forall i | 0 <= i < |e.events| ensures e.events[i] != DeleteFile(path) {
        if i < |t.events| {
          assert e.events[i] == t.events[i];
        } else {
          assert e.events[i] == f[i - |t.events|];
        }
      }
    }
  }

  /**
   * The shutdown hook is installed only once `up` has started, right after its launch,
   * and it is removed, as the last step of the call, exactly when it was installed.
   */
  lemma ComposeHookPairing(current: Option<string>, b: Bindings, cfg: DockerComposeSettings, tempDir: string,
                           yamlFileName: string, upArgv: Argv, downArgv: Argv, w: ComposeWorld)
    requires !BadScratch(b)
    ensures var e := ComposeEval(current, b, cfg, tempDir, yamlFileName, upArgv, downArgv, w);
      && (Occurs(e.events, HookAdded) <==> w.writeOk && w.up.Started())
      && (Occurs(e.events, HookRemoved) <==> Occurs(e.events, HookAdded))
      && (Occurs(e.events, HookAdded) ==> e.events[1] == Launch(ComposeUp, upArgv, e.directory) && e.events[2] == HookAdded)
      && (Occurs(e.events, HookRemoved) ==> e.events[|e.events| - 1] == HookRemoved)
  {
    var e := ComposeEval(current, b, cfg, tempDir, yamlFileName, upArgv, downArgv, w);
    var dir := WorkingDirectory(b, tempDir);
    var t := ComposeTryBlock(dir, yamlFileName, upArgv, w);
    var f := ComposeFinally(dir, downArgv, t.written, t.hook, cfg.keepDockerFile);
    EvalOfParts(current, b, cfg, tempDir, yamlFileName, upArgv, downArgv, w);
    if t.hook {
      assert e.events[2] == HookAdded;
      assert e.events[|e.events| - 1] == HookRemoved;
    } else {
      forall i | 0 <= i < |e.events| ensures e.events[i] != HookAdded && e.events[i] != HookRemoved {
        if i < |t.events| {
          assert e.events[i] == t.events[i];
        } else {
          assert e.events[i] == f[i - |t.events|];
        }
      }
    }
  }
}
