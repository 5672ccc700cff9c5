/**
 * What one `eval` of the Dockerfile engine does, as functions of the engine's fields, the
 * bindings and the outcome of every process it may start: which actions to take, what to
 * call the image and the container, the forward steps build, run and exec, and the
 * cleanup that follows on every path.
 */
module DockerFileLifecycle {
  import opened Wrappers
  import opened JavaText
  import opened ProcessModel
  import opened ScriptBindings
  import opened DockerFileProperties
  import opened DockerFileCommands

  const DOCKER_ACTIONS_GI := "docker-actions"
  const DOCKER_IMAGE_TAG_GI := "docker-image-tag"
  const DOCKER_CONTAINER_TAG_GI := "docker-container-tag"
  const DOCKER_ACTIONS_DEFAULT := "build,run,stop,rmi"
  const DEFAULT_IMAGE_NAME := "image"
  const DEFAULT_CONTAINER_NAME := "container"

  /**
   * The engine's fields. A process handle is the command line of the process it refers
   * to; `bindings` is the engine scope of the latest `eval`. The fields keep their values
   * from one `eval` to the next.
   */
  datatype EngineState = EngineState(
    imageTagName: string,
    containerTagName: string,
    dockerActions: set<string>,
    imageCreated: bool,
    containerStarted: bool,
    processBuild: Option<Argv>,
    processRun: Option<Argv>,
    processExec: Option<Argv>,
    dockerfile: Option<FilePath>,
    directory: Option<string>,
    bindings: Bindings)

  /** The fields of a freshly constructed engine. */
  const INITIAL: EngineState := EngineState(
    DEFAULT_IMAGE_NAME, DEFAULT_CONTAINER_NAME, {}, false, false, None, None, None, None, None, map[])

  /**
   * How the processes an `eval` may start would end. Each docker verb runs at most once per
   * `eval`; `writeOk` says whether writing the Dockerfile succeeds.
   */
  datatype World = World(
    writeOk: bool,
    build: Outcome, run: Outcome, exec: Outcome,
    stop: Outcome, rm: Outcome, rmi: Outcome)

  // ---------------------------------------------------------------------------------
  // Actions and tags
  // ---------------------------------------------------------------------------------

  /** The action names of a comma-separated list. */
  function ParseActions(raw: string): set<string> {
    set a | a in SplitOnCommas(raw)
  }

  /** The action names of `DOCKER_ACTIONS_DEFAULT` (see `DefaultActionSet`, which parses it). */
  const DEFAULT_ACTIONS: set<string> := {"build", "run", "stop", "rmi"}

  /** `updateDockerActions`: the default set, replaced by the `docker-actions` entry of generic information. */
  function ActionsFor(b: Bindings): Resolution<set<string>> {
    var default := DEFAULT_ACTIONS;
    if GENERIC_INFO_BINDING_NAME !in b then Resolved(default)
    else match b[GENERIC_INFO_BINDING_NAME]
      case Dict(gi) =>
        if DOCKER_ACTIONS_GI in gi then Resolved(ParseActions(gi[DOCKER_ACTIONS_GI])) else Resolved(default)
      case _ => Faulted(default, BadBinding(GENERIC_INFO_BINDING_NAME))
  }

  /** The tag built from the task's identifiers, as in "image_1t2". */
  function TagWithIds(base: string, jobId: string, taskId: string): string {
    base + "_" + jobId + "t" + taskId
  }

  /**
   * `updateImageTagName` / `updateContainerTagName`: the job/task tag when both
   * identifiers are task variables, then the generic-information entry `giKey` when
   * present; otherwise the tag keeps its previous value.
   */
  function TagFor(current: string, base: string, giKey: string, b: Bindings): Resolution<string> {
    var afterVariables :=
      if VARIABLES_BINDING_NAME !in b then Resolved(current)
      else match b[VARIABLES_BINDING_NAME]
        case Dict(vars) =>
          if PA_JOB_ID in vars && PA_TASK_ID in vars
          then Resolved(TagWithIds(base, vars[PA_JOB_ID], vars[PA_TASK_ID]))
          else Resolved(current)
        case _ => Faulted(current, BadBinding(VARIABLES_BINDING_NAME));
    if afterVariables.Faulted? || GENERIC_INFO_BINDING_NAME !in b then afterVariables
    else match b[GENERIC_INFO_BINDING_NAME]
      case Dict(gi) => if giKey in gi then Resolved(gi[giKey]) else afterVariables
      case _ => Faulted(afterVariables.value, BadBinding(GENERIC_INFO_BINDING_NAME))
  }

  /** The fields once `eval` has resolved its inputs, or the fault that ends it before the `try`. */
  datatype Prepared = Ready(state: EngineState) | Aborted(state: EngineState, fault: Fault)

  /**
   * The part of `eval` before the `try`: the action set, the two tags, the bindings and the
   * working directory (the scratch space, else the fresh temporary directory `tempDir`).
   */
  function Prepare(s: EngineState, b: Bindings, tempDir: string): (p: Prepared)
    ensures p.Ready? ==> p.state.directory.Some? && p.state.bindings == b
  {
    var actions := ActionsFor(b);
    var s1 := s.(dockerActions := actions.value);
    if actions.Faulted? then Aborted(s1, actions.fault) else
    var image := TagFor(s1.imageTagName, DEFAULT_IMAGE_NAME, DOCKER_IMAGE_TAG_GI, b);
    var s2 := s1.(imageTagName := image.value);
    if image.Faulted? then Aborted(s2, image.fault) else
    var container := TagFor(s2.containerTagName, DEFAULT_CONTAINER_NAME, DOCKER_CONTAINER_TAG_GI, b);
    var s3 := s2.(containerTagName := container.value);
    if container.Faulted? then Aborted(s3, container.fault) else
    var s4 := s3.(bindings := b);
    var dir := ScratchDirectory(s4.directory, b, tempDir);
    var s5 := s4.(directory := dir.value);
    if dir.Faulted? then Aborted(s5, dir.fault) else Ready(s5)
  }

  // ---------------------------------------------------------------------------------
  // Forward steps
  // ---------------------------------------------------------------------------------

  /** Whether a step lets the next one run, or ends the `try` block. */
  datatype StepEnd = Continue | Leave(exit: TryExit)

  datatype Step = Step(state: EngineState, events: seq<Event>, end: StepEnd)

  /**
   * `runDockerBuildCommand`: the image counts as created once the process starts, and the
   * handle is dropped only after a zero exit.
   */
  function BuildStep(s: EngineState, argv: Argv, o: Outcome): Step {
    var launched := [Launch(Build, argv, s.directory)];
    var started := s.(processBuild := Some(argv), imageCreated := true);
    match o
    case IOFail => Step(s, launched, Leave(Caught))
    case Interrupted => Step(started, launched, Leave(Caught))
    case Exit(n) =>
      if n != 0 then Step(started, launched, Leave(Thrown(BuildFailed(n))))
      else Step(started.(processBuild := None), launched, Continue)
  }

  /**
   * `runDockerRunCommand`: the container counts as started once the process starts, and
   * the handle is dropped as soon as `waitFor` returns, before the exit code is checked.
   */
  function RunStep(s: EngineState, argv: Argv, o: Outcome): Step {
    var launched := [Launch(Run, argv, None)];
    var started := s.(processRun := Some(argv), containerStarted := true);
    match o
    case IOFail => Step(s, launched, Leave(Caught))
    case Interrupted => Step(started, launched, Leave(Caught))
    case Exit(n) =>
      Step(started.(processRun := None), launched, if n != 0 then Leave(Thrown(RunFailed(n))) else Continue)
  }

  /** `runDockerExecCommand`: like run, without a flag. */
  function ExecStep(s: EngineState, argv: Argv, o: Outcome): Step {
    var launched := [Launch(Exec, argv, None)];
    var started := s.(processExec := Some(argv));
    match o
    case IOFail => Step(s, launched, Leave(Caught))
    case Interrupted => Step(started, launched, Leave(Caught))
    case Exit(n) =>
      Step(started.(processExec := None), launched, if n != 0 then Leave(Thrown(ExecFailed(n))) else Continue)
  }

  /** The end of a `try` block: the fields, the events and how it was left. */
  datatype Phase = Phase(state: EngineState, events: seq<Event>, exit: TryExit)

  /** The build step when "build" is an action; otherwise the image is taken to exist already. */
  function BuildPart(s: EngineState, argv: Argv, w: World): Step {
    if BUILD_ARGUMENT in s.dockerActions then BuildStep(s, argv, w.build)
    else Step(s.(imageCreated := true), [], Continue)
  }

  /** The run step when "run" is an action; otherwise the container is taken to be running already. */
  function RunPart(s: EngineState, argv: Argv, w: World): Step {
    if RUN_ARGUMENT in s.dockerActions then RunStep(s, argv, w.run)
    else Step(s.(containerStarted := true), [], Continue)
  }

  /** The exec step when the exec action is an action. */
  function ExecPart(s: EngineState, argv: Argv, execAction: string, w: World): Step {
    if execAction in s.dockerActions then ExecStep(s, argv, w.exec)
    else Step(s, [], Continue)
  }

  /** Build, run, exec, each only when the step before it continued. */
  function ForwardPhase(s: EngineState, buildArgv: Argv, runArgv: Argv, execArgv: Argv, execAction: string, w: World): Phase {
    var b := BuildPart(s, buildArgv, w);
    if b.end.Leave? then Phase(b.state, b.events, b.end.exit) else
    var r := RunPart(b.state, runArgv, w);
    if r.end.Leave? then Phase(r.state, b.events + r.events, r.end.exit) else
    var e := ExecPart(r.state, execArgv, execAction, w);
    Phase(e.state, b.events + r.events + e.events, if e.end.Leave? then e.end.exit else Returned(0))
  }

  /** The `try` block and whether the shutdown hook was installed in it. */
  datatype TryRun = TryRun(state: EngineState, events: seq<Event>, exit: TryExit, hook: bool)

  /**
   * Write the Dockerfile into the working directory (a failure ends the block before the
   * hook is installed and leaves `dockerfile` as it was), install the hook, then run the
   * forward steps.
   */
  function TryBlock(s: EngineState, buildArgv: Argv, runArgv: Argv, execArgv: Argv, execAction: string, w: World): TryRun
    requires s.directory.Some?
  {
    if !w.writeOk then TryRun(s, [], Caught, false)
    else
      var path := FilePath(s.directory.value, FILENAME);
      var f := ForwardPhase(s.(dockerfile := Some(path)), buildArgv, runArgv, execArgv, execAction, w);
      TryRun(f.state, [WriteFile(path), HookAdded] + f.events, f.exit, true)
  }

  // ---------------------------------------------------------------------------------
  // Cleanup
  // ---------------------------------------------------------------------------------

  /** The cleanup's events and the ScriptException that ends it early, if any. */
  datatype Cleanup = Cleanup(events: seq<Event>, failure: Option<Failure>)

  /** `stopAndRemoveContainer`: stop, and remove the container only after a stop that exits 0. */
  function StopAndRemoveStep(cfg: DockerFileSettings, container: string, b: Bindings, w: World): Cleanup {
    var stopped := [Launch(Stop, StopCommand(cfg, container, b), None)];
    match w.stop
    case IOFail => Cleanup(stopped, Some(StopError))
    case Interrupted => Cleanup(stopped, Some(StopError))
    case Exit(n) =>
      if n != 0 then Cleanup(stopped, Some(StopFailed(n)))
      else
        var removed := stopped + [Launch(Rm, RemoveCommand(cfg, container, b), None)];
        match w.rm
        case IOFail => Cleanup(removed, Some(RmError))
        case Interrupted => Cleanup(removed, Some(RmError))
        case Exit(m) => Cleanup(removed, if m != 0 then Some(RmFailed(m)) else None)
  }

  /** `removeImage`. */
  function RemoveImageStep(cfg: DockerFileSettings, image: string, o: Outcome): Cleanup {
    var removed := [Launch(Rmi, RemoveImageCommand(cfg, image), None)];
    match o
    case IOFail => Cleanup(removed, Some(RmiError))
    case Interrupted => Cleanup(removed, Some(RmiError))
    case Exit(n) => Cleanup(removed, if n != 0 then Some(RmiFailed(n)) else None)
  }

  function DestroyIfSet(v: Verb, handle: Option<Argv>): seq<Event> {
    if handle.Some? then [Destroy(v, handle.value)] else []
  }

  /** The first part of `handleShutdown`: delete the Dockerfile unless it is kept, destroy every process still held. */
  function ReleaseEvents(s: EngineState, cfg: DockerFileSettings): seq<Event> {
    var deleted := if s.dockerfile.Some? && !cfg.keepDockerFile then [DeleteFile(s.dockerfile.value)] else [];
    deleted + (DestroyIfSet(Build, s.processBuild) + DestroyIfSet(Run, s.processRun) + DestroyIfSet(Exec, s.processExec))
  }

  /** Stop and remove the container when it was started and "stop" is an action. */
  function ContainerCleanup(s: EngineState, cfg: DockerFileSettings, w: World): Cleanup {
    if s.containerStarted && STOP_ARGUMENT in s.dockerActions
    then StopAndRemoveStep(cfg, s.containerTagName, s.bindings, w)
    else Cleanup([], None)
  }

  /** Remove the image when it was created and "rmi" is an action. */
  function ImageCleanup(s: EngineState, cfg: DockerFileSettings, w: World): Cleanup {
    if s.imageCreated && RMI_ARGUMENT in s.dockerActions
    then RemoveImageStep(cfg, s.imageTagName, w.rmi)
    else Cleanup([], None)
  }

  /**
   * `handleShutdown`: release the Dockerfile and the processes, clean up the container,
   * then the image. A failing step throws, and the steps after it do not run.
   */
  function Shutdown(s: EngineState, cfg: DockerFileSettings, w: World): Cleanup {
    var released := ReleaseEvents(s, cfg);
    var container := ContainerCleanup(s, cfg, w);
    if container.failure.Some? then Cleanup(released + container.events, container.failure) else
    var image := ImageCleanup(s, cfg, w);
    Cleanup(released + container.events + image.events, image.failure)
  }

  // ---------------------------------------------------------------------------------
  // The whole eval
  // ---------------------------------------------------------------------------------

  /** The fields after an `eval`, what it did, and what it handed back. */
  datatype Evaluation = Evaluation(state: EngineState, events: seq<Event>, result: EvalResult)

  /**
   * The end of the `finally` block with the hook removal guarded, as the compose engine
   * does: a cleanup exception replaces the outcome of the `try`; otherwise the hook is
   * removed when it was installed and the `try`'s outcome stands.
   */
  function RemoveHook(t: TryRun, c: Cleanup): Evaluation {
    if c.failure.Some? then Evaluation(t.state, t.events + c.events, ScriptErr(c.failure.value))
    else if t.hook then Evaluation(t.state, t.events + c.events + [HookRemoved], TryResult(t.exit))
    else Evaluation(t.state, t.events + c.events, TryResult(t.exit))
  }

  /**
   * The end of the `finally` block as written: `removeShutdownHook` is called even when no
   * hook was created, and removing a null hook throws NullPointerException.
   */
  function RemoveHookAsWritten(t: TryRun, c: Cleanup): Evaluation {
    if c.failure.Some? then Evaluation(t.state, t.events + c.events, ScriptErr(c.failure.value))
    else if t.hook then Evaluation(t.state, t.events + c.events + [HookRemoved], TryResult(t.exit))
    else Evaluation(t.state, t.events + c.events, Crash(NullShutdownHook))
  }

  /** The `try` block of an `eval` whose inputs resolved to `s`. */
  function TryOf(s: EngineState, b: Bindings, cfg: DockerFileSettings, execArgv: Argv, execAction: string, w: World): TryRun
    requires s.directory.Some?
  {
    TryBlock(s, BuildCommand(cfg, s.imageTagName, b), RunCommand(cfg, s.containerTagName, s.imageTagName, b),
      execArgv, execAction, w)
  }

  /**
   * `eval(script, context)` on an engine whose fields are `s`, with the engine-scope
   * bindings `b`, the settings `cfg`, the fresh temporary directory `tempDir`, and the exec
   * command line and action name built outside this model.
   */
  function EvalRun(s: EngineState, b: Bindings, cfg: DockerFileSettings, tempDir: string,
                   execArgv: Argv, execAction: string, w: World): Evaluation
  {
    var p := Prepare(s, b, tempDir);
    if p.Aborted? then Evaluation(p.state, [], Crash(p.fault))
    else
      var t := TryOf(p.state, b, cfg, execArgv, execAction, w);
      RemoveHook(t, Shutdown(t.state, cfg, w))
  }

  /** `eval` with the hook removal as written. */
  function EvalRunAsWritten(s: EngineState, b: Bindings, cfg: DockerFileSettings, tempDir: string,
                            execArgv: Argv, execAction: string, w: World): Evaluation
  {
    var p := Prepare(s, b, tempDir);
    if p.Aborted? then Evaluation(p.state, [], Crash(p.fault))
    else
      var t := TryOf(p.state, b, cfg, execArgv, execAction, w);
      RemoveHookAsWritten(t, Shutdown(t.state, cfg, w))
  }
}
