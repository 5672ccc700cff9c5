/**
 * `DockerFileScriptEngine`: the engine object whose fields carry the action set, the tags,
 * the process handles and the flags from one `eval` to the next. Every method changes the
 * fields as the functions of `DockerFileLifecycle` say, and appends what it does to `log`.
 */
module DockerFileEngine {
  import opened Wrappers
  import opened ProcessModel
  import opened ScriptBindings
  import opened DockerFileProperties
  import opened DockerFileCommands
  import opened DockerFileLifecycle
  import DockerFileLifecycleProperties

  class DockerFileScriptEngine {
    var imageTagName: string
    var containerTagName: string
    var dockerActions: set<string>
    var imageCreated: bool
    var containerStarted: bool
    var processBuild: Option<Argv>
    var processRun: Option<Argv>
    var processExec: Option<Argv>
    var dockerfile: Option<FilePath>
    var directory: Option<string>
    var bindings: Bindings
    /** What the engine did to the outside world so far, oldest first. */
    var log: seq<Event>

    /** The fields that carry over between calls; `log` is not among them. */
    function State(): EngineState
      reads this`imageTagName, this`containerTagName, this`dockerActions, this`imageCreated,
        this`containerStarted, this`processBuild, this`processRun, this`processExec,
        this`dockerfile, this`directory, this`bindings
    {
      EngineState(imageTagName, containerTagName, dockerActions, imageCreated, containerStarted,
        processBuild, processRun, processExec, dockerfile, directory, bindings)
    }

    constructor ()
      ensures State() == INITIAL && log == []
    {
      imageTagName := DEFAULT_IMAGE_NAME;
      containerTagName := DEFAULT_CONTAINER_NAME;
      dockerActions := {};
      imageCreated, containerStarted := false, false;
      processBuild, processRun, processExec := None, None, None;
      dockerfile, directory := None, None;
      bindings := map[];
      log := [];
    }

    /**
     * `updateDockerActions`: the default actions, replaced by the `docker-actions` entry; a
     * generic-information binding that is not a map fails the cast, after the default set
     * was assigned.
     */
    method UpdateDockerActions(b: Bindings) returns (fault: Option<Fault>)
      modifies this`dockerActions
      ensures dockerActions == ActionsFor(b).value
      ensures fault.None? <==> ActionsFor(b).Resolved?
      ensures fault.Some? ==> fault.value == ActionsFor(b).fault
    {
      DockerFileLifecycleProperties.DefaultActionSet();
      dockerActions := ParseActions(DOCKER_ACTIONS_DEFAULT);
      fault := None;
      if GENERIC_INFO_BINDING_NAME in b {
        match b[GENERIC_INFO_BINDING_NAME]
        case Dict(gi) =>
          if DOCKER_ACTIONS_GI in gi {
            dockerActions := ParseActions(gi[DOCKER_ACTIONS_GI]);
          }
        case _ =>
          fault := Some(BadBinding(GENERIC_INFO_BINDING_NAME));
      }
    }

    /** `updateImageTagName`: the job/task tag, then the generic-information entry; each cast may fail. */
    method UpdateImageTagName(b: Bindings) returns (fault: Option<Fault>)
      modifies this`imageTagName
      ensures imageTagName == TagFor(old(imageTagName), DEFAULT_IMAGE_NAME, DOCKER_IMAGE_TAG_GI, b).value
      ensures fault.None? <==> TagFor(old(imageTagName), DEFAULT_IMAGE_NAME, DOCKER_IMAGE_TAG_GI, b).Resolved?
      ensures fault.Some? ==> fault.value == TagFor(old(imageTagName), DEFAULT_IMAGE_NAME, DOCKER_IMAGE_TAG_GI, b).fault
    {
      if VARIABLES_BINDING_NAME in b {
        match b[VARIABLES_BINDING_NAME]
        case Dict(vars) =>
          if PA_JOB_ID in vars && PA_TASK_ID in vars {
            imageTagName := TagWithIds(DEFAULT_IMAGE_NAME, vars[PA_JOB_ID], vars[PA_TASK_ID]);
          }
        case _ =>
          return Some(BadBinding(VARIABLES_BINDING_NAME));
      }
      fault := None;
      if GENERIC_INFO_BINDING_NAME in b {
        match b[GENERIC_INFO_BINDING_NAME]
        case Dict(gi) =>
          if DOCKER_IMAGE_TAG_GI in gi {
            imageTagName := gi[DOCKER_IMAGE_TAG_GI];
          }
        case _ =>
          fault := Some(BadBinding(GENERIC_INFO_BINDING_NAME));
      }
    }

    /** `updateContainerTagName`: the job/task tag, then the generic-information entry; each cast may fail. */
    method UpdateContainerTagName(b: Bindings) returns (fault: Option<Fault>)
      modifies this`containerTagName
      ensures containerTagName == TagFor(old(containerTagName), DEFAULT_CONTAINER_NAME, DOCKER_CONTAINER_TAG_GI, b).value
      ensures fault.None? <==> TagFor(old(containerTagName), DEFAULT_CONTAINER_NAME, DOCKER_CONTAINER_TAG_GI, b).Resolved?
      ensures fault.Some? ==> fault.value == TagFor(old(containerTagName), DEFAULT_CONTAINER_NAME, DOCKER_CONTAINER_TAG_GI, b).fault
    {
      if VARIABLES_BINDING_NAME in b {
        match b[VARIABLES_BINDING_NAME]
        case Dict(vars) =>
          if PA_JOB_ID in vars && PA_TASK_ID in vars {
            containerTagName := TagWithIds(DEFAULT_CONTAINER_NAME, vars[PA_JOB_ID], vars[PA_TASK_ID]);
          }
        case _ =>
          return Some(BadBinding(VARIABLES_BINDING_NAME));
      }
      fault := None;
      if GENERIC_INFO_BINDING_NAME in b {
        match b[GENERIC_INFO_BINDING_NAME]
        case Dict(gi) =>
          if DOCKER_CONTAINER_TAG_GI in gi {
            containerTagName := gi[DOCKER_CONTAINER_TAG_GI];
          }
        case _ =>
          fault := Some(BadBinding(GENERIC_INFO_BINDING_NAME));
      }
    }

    /**
     * `runDockerBuildCommand`: start the build in the working directory (a failure to start
     * leaves every field as it was), count the image as created, wait; a nonzero exit throws
     * with the handle still held, a zero exit drops it.
     */
    method RunDockerBuildCommand(argv: Argv, o: Outcome) returns (end: StepEnd)
      modifies this`processBuild, this`imageCreated, this`log
      ensures var st := BuildStep(old(State()), argv, o);
        State() == st.state && log == old(log) + st.events && end == st.end
    {
      log := log + [Launch(Build, argv, directory)];
      if o.IOFail? {
        return Leave(Caught);
      }
      processBuild := Some(argv);
      imageCreated := true;
      if o.Interrupted? {
        return Leave(Caught);
      }
      var exitValueBuild := o.code;
      if exitValueBuild != 0 {
        return Leave(Thrown(BuildFailed(exitValueBuild)));
      }
      processBuild := None;
      end := Continue;
    }

    /**
     * `runDockerRunCommand`: start the container (in no particular directory), count it as
     * started, wait, drop the handle, and throw on a nonzero exit.
     */
    method RunDockerRunCommand(argv: Argv, o: Outcome) returns (end: StepEnd)
      modifies this`processRun, this`containerStarted, this`log
      ensures var st := RunStep(old(State()), argv, o);
        State() == st.state && log == old(log) + st.events && end == st.end
    {
      log := log + [Launch(Run, argv, None)];
      if o.IOFail? {
        return Leave(Caught);
      }
      processRun := Some(argv);
      containerStarted := true;
      if o.Interrupted? {
        return Leave(Caught);
      }
      var exitValueRun := o.code;
      processRun := None;
      if exitValueRun != 0 {
        return Leave(Thrown(RunFailed(exitValueRun)));
      }
      end := Continue;
    }

    /** `runDockerExecCommand`: like the run step, without a flag. */
    method RunDockerExecCommand(argv: Argv, o: Outcome) returns (end: StepEnd)
      modifies this`processExec, this`log
      ensures var st := ExecStep(old(State()), argv, o);
        State() == st.state && log == old(log) + st.events && end == st.end
    {
      log := log + [Launch(Exec, argv, None)];
      if o.IOFail? {
        return Leave(Caught);
      }
      processExec := Some(argv);
      if o.Interrupted? {
        return Leave(Caught);
      }
      var exitValueExec := o.code;
      processExec := None;
      if exitValueExec != 0 {
        return Leave(Thrown(ExecFailed(exitValueExec)));
      }
      end := Continue;
    }

    /**
     * `stopAndRemoveContainer`: build both command lines from the bindings of the latest
     * `eval`, stop the container, and remove it only after a stop that exited 0.
     */
    method StopAndRemoveContainer(cfg: DockerFileSettings, container: string, w: World) returns (failure: Option<Failure>)
      modifies this`log
      ensures var c := StopAndRemoveStep(cfg, container, bindings, w);
        log == old(log) + c.events && failure == c.failure
    {
      var dockerStopCommand := CreateDockerStopExecutionCommand(cfg, container, bindings);
      var dockerRMCommand := CreateDockerRemoveExecutionCommand(cfg, container, bindings);
      log := log + [Launch(Stop, dockerStopCommand, None)];
      if !w.stop.Exit? {
        return Some(StopError);
      }
      var exitValue := w.stop.code;
      if exitValue != 0 {
        return Some(StopFailed(exitValue));
      }
      log := log + [Launch(Rm, dockerRMCommand, None)];
      if !w.rm.Exit? {
        return Some(RmError);
      }
      exitValue := w.rm.code;
      if exitValue != 0 {
        return Some(RmFailed(exitValue));
      }
      failure := None;
    }

    /** `removeImage`. */
    method RemoveImage(cfg: DockerFileSettings, image: string, o: Outcome) returns (failure: Option<Failure>)
      modifies this`log
      ensures var c := RemoveImageStep(cfg, image, o);
        log == old(log) + c.events && failure == c.failure
    {
      var dockerRMICommand := CreateDockerRemoveImage(cfg, image);
      log := log + [Launch(Rmi, dockerRMICommand, None)];
      if !o.Exit? {
        return Some(RmiError);
      }
      var exitValue := o.code;
      if exitValue != 0 {
        return Some(RmiFailed(exitValue));
      }
      failure := None;
    }

    /**
     * The first part of `handleShutdown`: delete the Dockerfile unless it is kept, and
     * destroy every process whose handle is still held (the handles keep their values).
     */
    method ReleaseResources(cfg: DockerFileSettings)
      modifies this`log
      ensures log == old(log) + ReleaseEvents(old(State()), cfg)
    {
      ghost var s := State();
      ghost var destroyed := DestroyIfSet(Build, s.processBuild) + DestroyIfSet(Run, s.processRun) + DestroyIfSet(Exec, s.processExec);
      ghost var start := log;
      if dockerfile.Some? && !cfg.keepDockerFile {
        log := log + [DeleteFile(dockerfile.value)];
      }
      ghost var afterDelete := log;
      assert afterDelete == start + (if s.dockerfile.Some? && !cfg.keepDockerFile then [DeleteFile(s.dockerfile.value)] else []);
      if processBuild.Some? {
        log := log + [Destroy(Build, processBuild.value)];
      }
      assert log == afterDelete + DestroyIfSet(Build, s.processBuild);
      if processRun.Some? {
        log := log + [Destroy(Run, processRun.value)];
      }
      assert log == afterDelete + DestroyIfSet(Build, s.processBuild) + DestroyIfSet(Run, s.processRun);
      if processExec.Some? {
        log := log + [Destroy(Exec, processExec.value)];
      }
      assert log == afterDelete + DestroyIfSet(Build, s.processBuild) + DestroyIfSet(Run, s.processRun) + DestroyIfSet(Exec, s.processExec);
      AppendAssoc(afterDelete, DestroyIfSet(Build, s.processBuild), DestroyIfSet(Run, s.processRun));
      AppendAssoc(afterDelete, DestroyIfSet(Build, s.processBuild) + DestroyIfSet(Run, s.processRun), DestroyIfSet(Exec, s.processExec));
      AppendAssoc(start, if s.dockerfile.Some? && !cfg.keepDockerFile then [DeleteFile(s.dockerfile.value)] else [], destroyed);
    }

    /**
     * `handleShutdown`: release the Dockerfile and the processes, then stop and remove the
     * container when it was started and "stop" is an action, then remove the image when
     * it was created and "rmi" is an action; the first failure is thrown and ends the
     * cleanup.
     */
    method HandleShutdown(cfg: DockerFileSettings, w: World) returns (failure: Option<Failure>)
      modifies this`log
      ensures var c := Shutdown(old(State()), cfg, w);
        log == old(log) + c.events && failure == c.failure
    {
      ghost var start := log;
      ghost var s := State();
      ReleaseResources(cfg);
      ghost var released := ReleaseEvents(s, cfg);
      ghost var container := ContainerCleanup(s, cfg, w);
      ghost var afterRelease := log;
      failure := None;
      if containerStarted && STOP_ARGUMENT in dockerActions {
        failure := StopAndRemoveContainer(cfg, containerTagName, w);
      }
      assert log == afterRelease + container.events && failure == container.failure;
      AppendAssoc(start, released, container.events);
      if failure.Some? {
        return;
      }
      ghost var image := ImageCleanup(s, cfg, w);
      ghost var cleaned := log;
      if imageCreated && RMI_ARGUMENT in dockerActions {
        failure := RemoveImage(cfg, imageTagName, w.rmi);
      }
      assert log == cleaned + image.events && failure == image.failure;
      AppendAssoc(start, released + container.events, image.events);
    }

    /**
     * The forward part of the `try` block: build, run and exec, each when its action is
     * set and only while the steps before it exited 0. A skipped build or run counts the
     * image or the container as existing already.
     */
    method RunForwardSteps(buildArgv: Argv, runArgv: Argv, execArgv: Argv, execAction: string, w: World)
      returns (exit: TryExit)
      modifies this`processBuild, this`processRun, this`processExec, this`imageCreated, this`containerStarted, this`log
      ensures var f := ForwardPhase(old(State()), buildArgv, runArgv, execArgv, execAction, w);
        State() == f.state && log == old(log) + f.events && exit == f.exit
    {
      ghost var start := log;
      ghost var s := State();
      var end: StepEnd := Continue;
      if BUILD_ARGUMENT in dockerActions {
        end := RunDockerBuildCommand(buildArgv, w.build);
      } else {
        imageCreated := true;
      }
      ghost var bp := BuildPart(s, buildArgv, w);
      assert State() == bp.state && log == start + bp.events && end == bp.end;
      if end.Leave? {
        return end.exit;
      }
      ghost var afterBuild := log;
      if RUN_ARGUMENT in dockerActions {
        end := RunDockerRunCommand(runArgv, w.run);
      } else {
        containerStarted := true;
      }
      ghost var rp := RunPart(bp.state, runArgv, w);
      assert State() == rp.state && log == afterBuild + rp.events && end == rp.end;
      if end.Leave? {
        AppendAssoc(start, bp.events, rp.events);
        return end.exit;
      }
      ghost var afterRun := log;
      if execAction in dockerActions {
        end := RunDockerExecCommand(execArgv, w.exec);
      }
      ghost var ep := ExecPart(rp.state, execArgv, execAction, w);
      assert State() == ep.state && log == afterRun + ep.events && end == ep.end;
      AppendAssoc(start, bp.events, rp.events);
      AppendAssoc(start, bp.events + rp.events, ep.events);
      exit := if end.Leave? then end.exit else Returned(0);
    }

    /**
     * The part of `eval` before the `try`: the action set, the two tags, the bindings and
     * the working directory (the scratch space, else the fresh temporary directory
     * `tempDir`). A failed cast ends it with the fields assigned so far.
     */
    method ResolveInputs(b: Bindings, tempDir: string) returns (fault: Option<Fault>)
      modifies this`dockerActions, this`imageTagName, this`containerTagName, this`bindings, this`directory
      ensures var p := Prepare(old(State()), b, tempDir);
        State() == p.state && (fault.None? <==> p.Ready?) && (fault.Some? ==> fault.value == p.fault)
    {
      ghost var s0 := State();
      fault := UpdateDockerActions(b);
      ghost var s1 := s0.(dockerActions := ActionsFor(b).value);
      assert State() == s1;
      if fault.Some? {
        return;
      }
      fault := UpdateImageTagName(b);
      ghost var s2 := s1.(imageTagName := TagFor(s1.imageTagName, DEFAULT_IMAGE_NAME, DOCKER_IMAGE_TAG_GI, b).value);
      assert State() == s2;
      if fault.Some? {
        return;
      }
      fault := UpdateContainerTagName(b);
      ghost var s3 := s2.(containerTagName := TagFor(s2.containerTagName, DEFAULT_CONTAINER_NAME, DOCKER_CONTAINER_TAG_GI, b).value);
      assert State() == s3;
      if fault.Some? {
        return;
      }
      bindings := b;
      ghost var s4 := s3.(bindings := b);
      assert State() == s4;
      fault := ResolveDirectory(tempDir);
      ghost var dir := ScratchDirectory(s4.directory, b, tempDir);
      assert State() == s4.(directory := dir.value);
      assert Prepare(s0, b, tempDir) == if dir.Faulted? then Aborted(s4.(directory := dir.value), dir.fault) else Ready(s4.(directory := dir.value));
    }

    /**
     * The working directory: the scratch binding when it holds a non-null string, else the
     * fresh temporary directory; a scratch binding of another type fails its cast and the
     * field keeps its value.
     */
    method ResolveDirectory(tempDir: string) returns (fault: Option<Fault>)
      modifies this`directory
      ensures var d := ScratchDirectory(old(directory), bindings, tempDir);
        directory == d.value && (fault.None? <==> d.Resolved?) && (fault.Some? ==> fault.value == d.fault)
    {
      var localSpace: Option<string> := None;
      if DS_SCRATCH_BINDING_NAME in bindings {
        match bindings[DS_SCRATCH_BINDING_NAME]
        case Text(s) =>
          localSpace := Some(s);
        case Null =>
        case _ =>
          return Some(BadBinding(DS_SCRATCH_BINDING_NAME));
      }
      if localSpace.Some? {
        directory := localSpace;
      } else {
        directory := Some(tempDir);
      }
      fault := None;
    }

    /**
     * The `try` block: write the Dockerfile into the working directory (a failed write
     * leaves `dockerfile` as it was and is caught), install the shutdown hook, run the
     * forward steps. `hookInstalled` tells whether the hook exists.
     */
    method TryBlockSteps(buildArgv: Argv, runArgv: Argv, execArgv: Argv, execAction: string, w: World)
      returns (exit: TryExit, hookInstalled: bool)
      requires directory.Some?
      modifies this`processBuild, this`processRun, this`processExec, this`imageCreated, this`containerStarted,
        this`dockerfile, this`log
      ensures var t := TryBlock(old(State()), buildArgv, runArgv, execArgv, execAction, w);
        State() == t.state && log == old(log) + t.events && exit == t.exit && hookInstalled == t.hook
    {
      if !w.writeOk {
        return Caught, false;
      }
      ghost var start := log;
      var path := FilePath(directory.value, FILENAME);
      dockerfile := Some(path);
      log := log + [WriteFile(path)];
      log := log + [HookAdded];
      hookInstalled := true;
      ghost var prologue := [WriteFile(path), HookAdded];
      AppendAssoc(start, [WriteFile(path)], [HookAdded]);
      assert log == start + prologue;
      ghost var s := State();
      ghost var f := ForwardPhase(s, buildArgv, runArgv, execArgv, execAction, w);
      exit := RunForwardSteps(buildArgv, runArgv, execArgv, execAction, w);
      AppendAssoc(start, prologue, f.events);
    }

    /**
     * `eval`: resolve the inputs, build the command lines, run the `try` block, then the
     * `finally` block: `handleShutdown`, whose exception replaces the outcome of the
     * `try`, and the removal of the hook when it was installed (the corrected `finally`
     * block; see the findings). A failed write or start of a process, and an interrupted
     * wait, are caught, and `eval` then returns null.
     */
    method Eval(b: Bindings, cfg: DockerFileSettings, tempDir: string, execArgv: Argv, execAction: string, w: World)
      returns (r: EvalResult)
      modifies this
      ensures var e := EvalRun(old(State()), b, cfg, tempDir, execArgv, execAction, w);
        State() == e.state && log == old(log) + e.events && r == e.result
    {
      ghost var start := log;
      var fault := ResolveInputs(b, tempDir);
      if fault.Some? {
        return Crash(fault.value);
      }
      var dockerFileCommand := CreateDockerBuildExecutionCommand(cfg, imageTagName, bindings);
      var dockerRunCommand := CreateDockerRunExecutionCommand(cfg, containerTagName, imageTagName, bindings);
      var exit, hookInstalled := TryBlockSteps(dockerFileCommand, dockerRunCommand, execArgv, execAction, w);
      ghost var t := TryRun(State(), log[|start|..], exit, hookInstalled);
      assert log == start + t.events;
      var failure := HandleShutdown(cfg, w);
      ghost var c := Shutdown(t.state, cfg, w);
      AppendAssoc(start, t.events, c.events);
      if failure.Some? {
        return ScriptErr(failure.value);
      }
      if hookInstalled {
        log := log + [HookRemoved];
        AppendAssoc(start, t.events + c.events, [HookRemoved]);
      }
      r := TryResult(exit);
    }
  }
}
