/**
 * What the Dockerfile engine promises about one `eval`: the action set and the tags it
 * resolves, the order and the stopping rule of the forward steps, what the cleanup does on
 * every path, and what `eval` hands back.
 */
module DockerFileLifecycleProperties {
  import opened Wrappers
  import opened JavaText
  import opened ProcessModel
  import opened ScriptBindings
  import opened DockerFileProperties
  import opened DockerFileCommands
  import opened DockerFileLifecycle

  // ---------------------------------------------------------------------------------
  // Actions and tags
  // ---------------------------------------------------------------------------------

  /**
   * The default list is the four names joined by commas. The list is taken through a
   * variable, so that the solver does not unfold the split of the literal.
   */
  lemma DefaultListJoined(raw: string)
    requires raw == DOCKER_ACTIONS_DEFAULT
    ensures Join(["build", "run", "stop", "rmi"], ",") == raw
  {
  }

  lemma DefaultListSplits(xs: seq<string>)
    requires xs == ["build", "run", "stop", "rmi"]
    ensures SplitOnCommas(Join(xs, ",")) == xs
  {
    SplitOnCommasOfJoin(xs);
  }

  /** The names of the default list, taken through a variable for the same reason. */
  lemma DefaultListNames(xs: seq<string>)
    requires xs == ["build", "run", "stop", "rmi"]
    ensures (set a | a in xs) == DEFAULT_ACTIONS
  {
  }

  /** Splitting "build,run,stop,rmi" at its commas gives the four default actions. */
  lemma DefaultActionSet()
    ensures ParseActions(DOCKER_ACTIONS_DEFAULT) == DEFAULT_ACTIONS
  {
    var xs := ["build", "run", "stop", "rmi"];
    DefaultListJoined(DOCKER_ACTIONS_DEFAULT);
    DefaultListSplits(xs);
    DefaultListNames(xs);
  }

  /** Without a `docker-actions` entry the engine builds, runs, stops and removes the image. */
  lemma ActionsWithoutOverride(b: Bindings)
    requires GENERIC_INFO_BINDING_NAME !in b
      || (b[GENERIC_INFO_BINDING_NAME].Dict? && DOCKER_ACTIONS_GI !in b[GENERIC_INFO_BINDING_NAME].entries)
    ensures ActionsFor(b) == Resolved(ParseActions(DOCKER_ACTIONS_DEFAULT))
  {
    DefaultActionSet();
  }

  /**
   * A `docker-actions` entry replaces the default set entirely: names listed with commas,
   * whitespace around the commas allowed, are exactly the actions.
   */
  lemma ActionsOverrideReplaces(b: Bindings, names: seq<string>)
    requires GENERIC_INFO_BINDING_NAME in b && b[GENERIC_INFO_BINDING_NAME].Dict?
    requires var gi := b[GENERIC_INFO_BINDING_NAME].entries;
      DOCKER_ACTIONS_GI in gi && gi[DOCKER_ACTIONS_GI] == Join(names, ",")
    requires |names| >= 1
    requires forall k :: 0 <= k < |names| ==> names[k] != "" && ',' !in names[k]
    requires forall k :: 0 <= k < |names| ==> !IsRegexSpace(names[k][0])
    requires forall k :: 0 <= k < |names| ==> !IsRegexSpace(names[k][|names[k]| - 1])
    ensures ActionsFor(b) == Resolved(set a | a in names)
  {
    SplitOnCommasOfJoin(names);
  }

  /** No action name holds a comma. */
  lemma ActionNamesHoldNoComma(b: Bindings)
    ensures forall a :: a in ActionsFor(b).value ==> ',' !in a
  {
    if GENERIC_INFO_BINDING_NAME in b && b[GENERIC_INFO_BINDING_NAME].Dict?
      && DOCKER_ACTIONS_GI in b[GENERIC_INFO_BINDING_NAME].entries {
      SplitOnCommasAvoidsCommas(b[GENERIC_INFO_BINDING_NAME].entries[DOCKER_ACTIONS_GI]);
    }
  }

  /**
   * Tag priority: the generic-information entry, else the job/task tag, else the
   * previous value; a variables or generic-information binding that is not a map
   * makes the cast fail.
   */
  lemma TagResolution(current: string, base: string, giKey: string, b: Bindings)
    ensures TagFor(current, base, giKey, b).Faulted? <==>
      (VARIABLES_BINDING_NAME in b && !b[VARIABLES_BINDING_NAME].Dict?)
      || (GENERIC_INFO_BINDING_NAME in b && !b[GENERIC_INFO_BINDING_NAME].Dict?)
    ensures (TagFor(current, base, giKey, b).Resolved? && GENERIC_INFO_BINDING_NAME in b
             && giKey in b[GENERIC_INFO_BINDING_NAME].entries) ==>
      TagFor(current, base, giKey, b).value == b[GENERIC_INFO_BINDING_NAME].entries[giKey]
    ensures (TagFor(current, base, giKey, b).Resolved?
             && !(GENERIC_INFO_BINDING_NAME in b && giKey in b[GENERIC_INFO_BINDING_NAME].entries)
             && VARIABLES_BINDING_NAME in b
             && PA_JOB_ID in b[VARIABLES_BINDING_NAME].entries && PA_TASK_ID in b[VARIABLES_BINDING_NAME].entries) ==>
      TagFor(current, base, giKey, b).value ==
        TagWithIds(base, b[VARIABLES_BINDING_NAME].entries[PA_JOB_ID], b[VARIABLES_BINDING_NAME].entries[PA_TASK_ID])
    ensures (TagFor(current, base, giKey, b).Resolved?
             && !(GENERIC_INFO_BINDING_NAME in b && giKey in b[GENERIC_INFO_BINDING_NAME].entries)
             && !(VARIABLES_BINDING_NAME in b
                  && PA_JOB_ID in b[VARIABLES_BINDING_NAME].entries && PA_TASK_ID in b[VARIABLES_BINDING_NAME].entries)) ==>
      TagFor(current, base, giKey, b).value == current
  {
  }

  /** Job 1, task 2 and no tag override give "image_1t2" and "container_1t2". */
  lemma JobTaskTagsExample(s: EngineState, tempDir: string)
    ensures var b := map[
        VARIABLES_BINDING_NAME := Dict(map[PA_JOB_ID := "1", PA_TASK_ID := "2"]),
        GENERIC_INFO_BINDING_NAME := Dict(map[])];
      Prepare(s, b, tempDir).Ready?
      && Prepare(s, b, tempDir).state.imageTagName == "image_1t2"
      && Prepare(s, b, tempDir).state.containerTagName == "container_1t2"
  {
  }

  /**
   * `eval` fails before its `try` exactly when a binding it casts has the wrong type; it
   * then has launched nothing, and the action set already holds its new value.
   */
  lemma CrashOnlyOnBadBinding(s: EngineState, b: Bindings, cfg: DockerFileSettings, tempDir: string,
                              execArgv: Argv, execAction: string, w: World)
    ensures var r := EvalRun(s, b, cfg, tempDir, execArgv, execAction, w);
      r.result.Crash? <==>
        (GENERIC_INFO_BINDING_NAME in b && !b[GENERIC_INFO_BINDING_NAME].Dict?)
        || (VARIABLES_BINDING_NAME in b && !b[VARIABLES_BINDING_NAME].Dict?)
        || (DS_SCRATCH_BINDING_NAME in b && !(b[DS_SCRATCH_BINDING_NAME].Null? || b[DS_SCRATCH_BINDING_NAME].Text?))
    ensures var r := EvalRun(s, b, cfg, tempDir, execArgv, execAction, w);
      r.result.Crash? ==> r.events == [] && r.state.dockerActions == ActionsFor(b).value
  {
    var p := Prepare(s, b, tempDir);
    TagResolution(s.imageTagName, DEFAULT_IMAGE_NAME, DOCKER_IMAGE_TAG_GI, b);
    var s2 := s.(dockerActions := ActionsFor(b).value,
                 imageTagName := TagFor(s.imageTagName, DEFAULT_IMAGE_NAME, DOCKER_IMAGE_TAG_GI, b).value);
    TagResolution(s2.containerTagName, DEFAULT_CONTAINER_NAME, DOCKER_CONTAINER_TAG_GI, b);
    if p.Ready? {
      var t := TryOf(p.state, b, cfg, execArgv, execAction, w);
      assert !RemoveHook(t, Shutdown(t.state, cfg, w)).result.Crash?;
    }
  }

  // ---------------------------------------------------------------------------------
  // Forward steps
  // ---------------------------------------------------------------------------------

  /** The place of a forward verb in the fixed order build, run, exec. */
  function ForwardRank(v: Verb): int {
    match v
    case Build => 0
    case Run => 1
    case Exec => 2
    case _ => 3
  }

  /** How the process of a verb ends in `w`. */
  function VerbOutcome(w: World, v: Verb): Outcome {
    match v
    case Build => w.build
    case Run => w.run
    case Exec => w.exec
    case Stop => w.stop
    case Rm => w.rm
    case Rmi => w.rmi
    case _ => IOFail
  }

  /** How the process a launch event started ends in `w`. */
  function OutcomeOf(w: World, e: Event): Outcome {
    if e.Launch? then VerbOutcome(w, e.verb) else IOFail
  }

  /** The ScriptException a forward verb throws on a nonzero exit. */
  function ForwardFailure(v: Verb, code: int): Failure {
    match v
    case Build => BuildFailed(code)
    case Run => RunFailed(code)
    case _ => ExecFailed(code)
  }

  /** A step that launched `v` once, continues exactly after a zero exit, and otherwise says why it stopped. */
  predicate StepLaunched(st: Step, v: Verb, o: Outcome) {
    |st.events| == 1 && st.events[0].Launch? && st.events[0].verb == v
    && (st.end.Continue? <==> o == Exit(0))
    && (st.end.Leave? ==>
          (st.end.exit == Caught && !o.Exit?)
          || (o.Exit? && o.code != 0 && st.end.exit == Thrown(ForwardFailure(v, o.code))))
  }

  predicate StepSkipped(st: Step) {
    st.events == [] && st.end == Continue
  }

  /** The fields the forward steps never change. */
  predicate SameSetup(a: EngineState, b: EngineState) {
    a.imageTagName == b.imageTagName && a.containerTagName == b.containerTagName
    && a.dockerActions == b.dockerActions && a.dockerfile == b.dockerfile
    && a.directory == b.directory && a.bindings == b.bindings
  }

  lemma BuildPartFacts(s: EngineState, argv: Argv, w: World)
    ensures var st := BuildPart(s, argv, w);
      (BUILD_ARGUMENT in s.dockerActions ==> StepLaunched(st, Build, w.build))
      && (BUILD_ARGUMENT !in s.dockerActions ==> StepSkipped(st) && st.state.imageCreated)
      && (BUILD_ARGUMENT in s.dockerActions && w.build.Started() ==> st.state.imageCreated)
      && SameSetup(st.state, s)
      && (s.imageCreated ==> st.state.imageCreated)
      && st.state.containerStarted == s.containerStarted
  {
  }

  lemma RunPartFacts(s: EngineState, argv: Argv, w: World)
    ensures var st := RunPart(s, argv, w);
      (RUN_ARGUMENT in s.dockerActions ==> StepLaunched(st, Run, w.run))
      && (RUN_ARGUMENT !in s.dockerActions ==> StepSkipped(st) && st.state.containerStarted)
      && (RUN_ARGUMENT in s.dockerActions && w.run.Started() ==> st.state.containerStarted)
      && SameSetup(st.state, s)
      && st.state.imageCreated == s.imageCreated
      && (s.containerStarted ==> st.state.containerStarted)
  {
  }

  lemma ExecPartFacts(s: EngineState, argv: Argv, execAction: string, w: World)
    ensures var st := ExecPart(s, argv, execAction, w);
      (execAction in s.dockerActions ==> StepLaunched(st, Exec, w.exec))
      && (execAction !in s.dockerActions ==> StepSkipped(st))
      && SameSetup(st.state, s)
      && st.state.imageCreated == s.imageCreated
      && st.state.containerStarted == s.containerStarted
  {
  }

  /** Launches of forward verbs only, in strictly increasing order. */
  predicate ForwardOrdered(events: seq<Event>) {
    (forall i :: 0 <= i < |events| ==> events[i].Launch? && ForwardRank(events[i].verb) < 3)
    && (forall i, j :: 0 <= i < j < |events| ==> ForwardRank(events[i].verb) < ForwardRank(events[j].verb))
  }

  /** Every launch of `events`, the last one perhaps excepted, had outcome `Exit(0)`. */
  predicate AllButLastSucceeded(events: seq<Event>, w: World) {
    forall i :: 0 <= i < |events| - 1 ==> OutcomeOf(w, events[i]) == Exit(0)
  }

  predicate AllSucceeded(events: seq<Event>, w: World) {
    forall i :: 0 <= i < |events| ==> OutcomeOf(w, events[i]) == Exit(0)
  }

  /**
   * How a `try` block that did not return ends, given its last launch: with null (a caught
   * exception) when that process failed to start or was interrupted, with a
   * ScriptException carrying the code when it exited nonzero.
   */
  predicate ExitExplained(exit: TryExit, last: Event, w: World)
    requires last.Launch?
  {
    var o := OutcomeOf(w, last);
    (exit.Caught? <==> !o.Exit?)
    && (exit.Thrown? <==> o.Exit? && o.code != 0)
    && (exit.Thrown? ==> exit.failure == ForwardFailure(last.verb, o.code))
    && !exit.Returned?
  }

  /**
   * What the forward steps promise: they run in the order build, run, exec; every launch
   * but the last one exited 0, so a failing step is the last one launched; they return 0
   * exactly when every launched step exited 0, and otherwise their last launch explains
   * how they ended.
   */
  predicate ForwardSummary(events: seq<Event>, exit: TryExit, w: World) {
    ForwardOrdered(events) && AllButLastSucceeded(events, w)
    && (exit.Returned? <==> AllSucceeded(events, w))
    && (exit.Returned? ==> exit.value == 0)
    && (!exit.Returned? ==>
          |events| > 0 && events[|events| - 1].Launch? && ExitExplained(exit, events[|events| - 1], w))
  }

  /**
   * The step `st` comes after the steps of `done`, all of which exited 0, and ranks after
   * them; appending its events keeps the order, and a step that ends the block explains
   * how it ended.
   */
  lemma AppendStep(done: seq<Event>, st: Step, v: Verb, o: Outcome, w: World)
    requires ForwardOrdered(done) && AllSucceeded(done, w)
    requires forall i :: 0 <= i < |done| ==> ForwardRank(done[i].verb) < ForwardRank(v)
    requires ForwardRank(v) < 3 && o == VerbOutcome(w, v)
    requires StepLaunched(st, v, o) || StepSkipped(st)
    ensures ForwardOrdered(done + st.events)
    ensures forall i :: 0 <= i < |done + st.events| ==> ForwardRank((done + st.events)[i].verb) <= ForwardRank(v)
    ensures st.end.Continue? ==> AllSucceeded(done + st.events, w)
    ensures st.end.Leave? ==> ForwardSummary(done + st.events, st.end.exit, w)
  {
    var all := done + st.events;
    forall i | 0 <= i < |all| ensures all[i].Launch? && ForwardRank(all[i].verb) <= ForwardRank(v) {
      if i < |done| { assert all[i] == done[i]; }
    }
    forall i, j | 0 <= i < j < |all| ensures ForwardRank(all[i].verb) < ForwardRank(all[j].verb) {
      if j < |done| { assert all[i] == done[i] && all[j] == done[j]; }
      else { assert all[i] == done[i]; }
    }
    forall i | 0 <= i < |all| - 1 ensures OutcomeOf(w, all[i]) == Exit(0) {
      assert all[i] == done[i];
    }
    if st.end.Continue? {
      forall i | 0 <= i < |all| ensures OutcomeOf(w, all[i]) == Exit(0) {
        if i < |done| { assert all[i] == done[i]; }
      }
    } else {
      assert all[|all| - 1] == st.events[0];
    }
  }

  lemma SummaryOfSuccess(events: seq<Event>, w: World)
    requires ForwardOrdered(events) && AllSucceeded(events, w)
    ensures ForwardSummary(events, Returned(0), w)
  {
  }

  /** The events and the exit of three steps run one after the other, as `ForwardPhase` chains them. */
  function Chain(b: Step, r: Step, e: Step): (seq<Event>, TryExit) {
    if b.end.Leave? then (b.events, b.end.exit)
    else if r.end.Leave? then (b.events + r.events, r.end.exit)
    else (b.events + r.events + e.events, if e.end.Leave? then e.end.exit else Returned(0))
  }

  /** Any three chained steps that launch build, run and exec or skip them keep the forward promise. */
  lemma ChainFacts(b: Step, r: Step, e: Step, w: World)
    requires StepLaunched(b, Build, w.build) || StepSkipped(b)
    requires StepLaunched(r, Run, w.run) || StepSkipped(r)
    requires StepLaunched(e, Exec, w.exec) || StepSkipped(e)
    ensures ForwardSummary(Chain(b, r, e).0, Chain(b, r, e).1, w)
  {
    AppendStep([], b, Build, w.build, w);
    assert [] + b.events == b.events;
    if b.end.Continue? {
      AppendStep(b.events, r, Run, w.run, w);
      if r.end.Continue? {
        AppendStep(b.events + r.events, e, Exec, w.exec, w);
        if e.end.Continue? {
          SummaryOfSuccess(b.events + r.events + e.events, w);
        }
      }
    }
  }

  lemma ForwardIsChain(s: EngineState, buildArgv: Argv, runArgv: Argv, execArgv: Argv, execAction: string, w: World)
    ensures var b := BuildPart(s, buildArgv, w);
      var r := RunPart(b.state, runArgv, w);
      var e := ExecPart(r.state, execArgv, execAction, w);
      var f := ForwardPhase(s, buildArgv, runArgv, execArgv, execAction, w);
      Chain(b, r, e) == (f.events, f.exit)
      && (StepLaunched(b, Build, w.build) || StepSkipped(b))
      && (StepLaunched(r, Run, w.run) || StepSkipped(r))
      && (StepLaunched(e, Exec, w.exec) || StepSkipped(e))
  {
    var b := BuildPart(s, buildArgv, w);
    BuildPartFacts(s, buildArgv, w);
    RunPartFacts(b.state, runArgv, w);
    ExecPartFacts(RunPart(b.state, runArgv, w).state, execArgv, execAction, w);
  }

  /** The forward steps keep the forward promise (`ForwardSummary`). */
  lemma ForwardOrder(s: EngineState, buildArgv: Argv, runArgv: Argv, execArgv: Argv, execAction: string, w: World)
    ensures var f := ForwardPhase(s, buildArgv, runArgv, execArgv, execAction, w);
      ForwardSummary(f.events, f.exit, w)
  {
    var b := BuildPart(s, buildArgv, w);
    var r := RunPart(b.state, runArgv, w);
    ForwardIsChain(s, buildArgv, runArgv, execArgv, execAction, w);
    ChainFacts(b, r, ExecPart(r.state, execArgv, execAction, w), w);
  }

  /**
   * A step left out of the actions is not launched and is taken as done: no build means
   * the image counts as created, and no run (once the build did not stop the block) means
   * the container counts as started. The flags become true as soon as the process starts,
   * whatever its exit code, and are never reset.
   */
  lemma SkippedStepsAssumeDone(s: EngineState, buildArgv: Argv, runArgv: Argv, execArgv: Argv, execAction: string, w: World)
    ensures var f := ForwardPhase(s, buildArgv, runArgv, execArgv, execAction, w);
      BUILD_ARGUMENT !in s.dockerActions ==> !Launches(f.events, Build) && f.state.imageCreated
    ensures var f := ForwardPhase(s, buildArgv, runArgv, execArgv, execAction, w);
      RUN_ARGUMENT !in s.dockerActions && (BUILD_ARGUMENT !in s.dockerActions || w.build == Exit(0)) ==>
        !Launches(f.events, Run) && f.state.containerStarted
    ensures var f := ForwardPhase(s, buildArgv, runArgv, execArgv, execAction, w);
      Launches(f.events, Exec) ==> execAction in s.dockerActions
    ensures var f := ForwardPhase(s, buildArgv, runArgv, execArgv, execAction, w);
      BUILD_ARGUMENT in s.dockerActions && w.build.Started() ==> f.state.imageCreated
    ensures var f := ForwardPhase(s, buildArgv, runArgv, execArgv, execAction, w);
      Launches(f.events, Run) && w.run.Started() ==> f.state.containerStarted
    ensures var f := ForwardPhase(s, buildArgv, runArgv, execArgv, execAction, w);
      (s.imageCreated ==> f.state.imageCreated) && (s.containerStarted ==> f.state.containerStarted)
  {
    var b := BuildPart(s, buildArgv, w);
    BuildPartFacts(s, buildArgv, w);
    if b.end.Continue? {
      var r := RunPart(b.state, runArgv, w);
      RunPartFacts(b.state, runArgv, w);
      LaunchesConcat(b.events, r.events, Build);
      LaunchesConcat(b.events, r.events, Run);
      LaunchesConcat(b.events, r.events, Exec);
      if r.end.Continue? {
        var e := ExecPart(r.state, execArgv, execAction, w);
        ExecPartFacts(r.state, execArgv, execAction, w);
        LaunchesConcat(b.events + r.events, e.events, Build);
        LaunchesConcat(b.events + r.events, e.events, Run);
        LaunchesConcat(b.events + r.events, e.events, Exec);
      }
    }
  }

  // ---------------------------------------------------------------------------------
  // Cleanup
  // ---------------------------------------------------------------------------------

  /** The place of a cleanup event: delete, the three destroys, stop, rm, rmi. */
  function CleanupRank(e: Event): int {
    match e
    case DeleteFile(_) => 0
    case Destroy(v, _) => if v == Build then 1 else if v == Run then 2 else 3
    case Launch(v, _, _) => if v == Stop then 4 else if v == Rm then 5 else if v == Rmi then 6 else 7
    case _ => 7
  }

  predicate RanksWithin(events: seq<Event>, lo: int, hi: int) {
    forall i :: 0 <= i < |events| ==> lo <= CleanupRank(events[i]) < hi
  }

  predicate RanksIncrease(events: seq<Event>) {
    forall i, j :: 0 <= i < j < |events| ==> CleanupRank(events[i]) < CleanupRank(events[j])
  }

  lemma RanksConcat(a: seq<Event>, c: seq<Event>, lo: int, mid: int, hi: int)
    requires lo <= mid <= hi
    requires RanksWithin(a, lo, mid) && RanksIncrease(a)
    requires RanksWithin(c, mid, hi) && RanksIncrease(c)
    ensures RanksWithin(a + c, lo, hi) && RanksIncrease(a + c)
  {
    forall i, j | 0 <= i < j < |a + c| ensures CleanupRank((a + c)[i]) < CleanupRank((a + c)[j]) {
      if j < |a| {
        assert (a + c)[i] == a[i] && (a + c)[j] == a[j];
      } else if i >= |a| {
        assert (a + c)[i] == c[i - |a|] && (a + c)[j] == c[j - |a|];
      } else {
        assert (a + c)[i] == a[i] && (a + c)[j] == c[j - |a|];
      }
    }
    forall i | 0 <= i < |a + c| ensures lo <= CleanupRank((a + c)[i]) < hi {
      if i < |a| {
        assert (a + c)[i] == a[i];
        assert lo <= CleanupRank(a[i]) < mid;
      } else {
        assert (a + c)[i] == c[i - |a|];
        assert mid <= CleanupRank(c[i - |a|]) < hi;
      }
    }
  }

  lemma DestroyIfSetFacts(v: Verb, handle: Option<Argv>)
    requires v == Build || v == Run || v == Exec
    ensures var d := DestroyIfSet(v, handle); var k := CleanupRank(Destroy(v, []));
      RanksWithin(d, k, k + 1) && RanksIncrease(d)
  {
  }

  /** Deleting and destroying come in the order delete, build, run, exec, and launch nothing. */
  lemma ReleaseFacts(s: EngineState, cfg: DockerFileSettings)
    ensures RanksWithin(ReleaseEvents(s, cfg), 0, 4) && RanksIncrease(ReleaseEvents(s, cfg))
  {
    var deleted := if s.dockerfile.Some? && !cfg.keepDockerFile then [DeleteFile(s.dockerfile.value)] else [];
    var d1 := DestroyIfSet(Build, s.processBuild);
    var d2 := DestroyIfSet(Run, s.processRun);
    var d3 := DestroyIfSet(Exec, s.processExec);
    DestroyIfSetFacts(Build, s.processBuild);
    DestroyIfSetFacts(Run, s.processRun);
    DestroyIfSetFacts(Exec, s.processExec);
    assert |deleted| <= 1 && (|deleted| == 1 ==> deleted[0].DeleteFile?);
    ReleaseRanks(deleted, d1, d2, d3);
  }

  /** A delete, then destroys of build, run and exec, in that order. */
  lemma ReleaseRanks(deleted: seq<Event>, d1: seq<Event>, d2: seq<Event>, d3: seq<Event>)
    requires |deleted| <= 1 && (|deleted| == 1 ==> deleted[0].DeleteFile?)
    requires RanksWithin(d1, 1, 2) && RanksIncrease(d1)
    requires RanksWithin(d2, 2, 3) && RanksIncrease(d2)
    requires RanksWithin(d3, 3, 4) && RanksIncrease(d3)
    ensures RanksWithin(deleted + (d1 + d2 + d3), 0, 4) && RanksIncrease(deleted + (d1 + d2 + d3))
  {
    RanksConcat(d1, d2, 1, 2, 3);
    RanksConcat(d1 + d2, d3, 1, 3, 4);
    assert RanksWithin(deleted, 0, 1) && RanksIncrease(deleted);
    RanksConcat(deleted, d1 + d2 + d3, 0, 1, 4);
  }

  /** The container cleanup: stop, then rm only after a stop that exited 0. */
  lemma ContainerCleanupFacts(s: EngineState, cfg: DockerFileSettings, w: World)
    ensures var c := ContainerCleanup(s, cfg, w);
      var runs := s.containerStarted && STOP_ARGUMENT in s.dockerActions;
      RanksWithin(c.events, 4, 6) && RanksIncrease(c.events)
      && (forall i :: 0 <= i < |c.events| ==> c.events[i].Launch?)
      && (Launches(c.events, Stop) <==> runs)
      && (Launches(c.events, Rm) <==> runs && w.stop == Exit(0))
      && !Launches(c.events, Rmi)
      && (c.failure.None? <==> (runs ==> w.stop == Exit(0) && w.rm == Exit(0)))
      && (c.failure.None? <==> AllSucceeded(c.events, w))
  {
    var c := ContainerCleanup(s, cfg, w);
    if s.containerStarted && STOP_ARGUMENT in s.dockerActions {
      assert c.events[0].Launch? && c.events[0].verb == Stop;
      if w.stop == Exit(0) {
        assert c.events[1].Launch? && c.events[1].verb == Rm;
      }
    }
  }

  /** The image cleanup: rmi exactly when the image counts as created and "rmi" is an action. */
  lemma ImageCleanupFacts(s: EngineState, cfg: DockerFileSettings, w: World)
    ensures var c := ImageCleanup(s, cfg, w);
      var runs := s.imageCreated && RMI_ARGUMENT in s.dockerActions;
      RanksWithin(c.events, 6, 7) && RanksIncrease(c.events)
      && (forall i :: 0 <= i < |c.events| ==> c.events[i].Launch?)
      && !Launches(c.events, Stop) && !Launches(c.events, Rm)
      && (Launches(c.events, Rmi) <==> runs)
      && (runs ==> c.events == [Launch(Rmi, RemoveImageCommand(cfg, s.imageTagName), None)])
      && (c.failure.None? <==> (runs ==> w.rmi == Exit(0)))
      && (c.failure.None? <==> AllSucceeded(c.events, w))
  {
    var c := ImageCleanup(s, cfg, w);
    if s.imageCreated && RMI_ARGUMENT in s.dockerActions {
      assert c.events[0].Launch? && c.events[0].verb == Rmi;
    }
  }

  /**
   * The cleanup runs its steps in the fixed order delete, destroy build, run and exec,
   * stop, rm, rmi, each at most once; in particular the Dockerfile is deleted at most once.
   */
  lemma CleanupOrder(s: EngineState, cfg: DockerFileSettings, w: World)
    ensures RanksWithin(Shutdown(s, cfg, w).events, 0, 7) && RanksIncrease(Shutdown(s, cfg, w).events)
  {
    var released := ReleaseEvents(s, cfg);
    var container := ContainerCleanup(s, cfg, w);
    ReleaseFacts(s, cfg);
    ContainerCleanupFacts(s, cfg, w);
    RanksConcat(released, container.events, 0, 4, 6);
    if container.failure.None? {
      ImageCleanupFacts(s, cfg, w);
      RanksConcat(released + container.events, ImageCleanup(s, cfg, w).events, 0, 6, 7);
    }
  }

  lemma NoLaunches(events: seq<Event>, v: Verb)
    requires RanksWithin(events, 0, 4)
    ensures !Launches(events, v)
  {
    forall i | 0 <= i < |events| ensures !events[i].Launch? {
      assert CleanupRank(events[i]) < 4;
    }
  }

  /**
   * What the cleanup launches: stop exactly when the container counts as started and
   * "stop" is an action; rm exactly when that stop exited 0 (the "rm" action plays no
   * part); rmi exactly when the image counts as created, "rmi" is an action and the
   * container cleanup, if it ran, did not fail. It ends without an exception exactly when
   * every step it runs exits 0.
   */
  lemma CleanupLaunches(s: EngineState, cfg: DockerFileSettings, w: World)
    ensures Launches(Shutdown(s, cfg, w).events, Stop) <==> s.containerStarted && STOP_ARGUMENT in s.dockerActions
    ensures Launches(Shutdown(s, cfg, w).events, Rm) <==>
      s.containerStarted && STOP_ARGUMENT in s.dockerActions && w.stop == Exit(0)
    ensures Launches(Shutdown(s, cfg, w).events, Rmi) <==>
      s.imageCreated && RMI_ARGUMENT in s.dockerActions
      && (s.containerStarted && STOP_ARGUMENT in s.dockerActions ==> w.stop == Exit(0) && w.rm == Exit(0))
    ensures Shutdown(s, cfg, w).failure.None? <==>
      (s.containerStarted && STOP_ARGUMENT in s.dockerActions ==> w.stop == Exit(0) && w.rm == Exit(0))
      && (s.imageCreated && RMI_ARGUMENT in s.dockerActions ==> w.rmi == Exit(0))
  {
    var released := ReleaseEvents(s, cfg);
    var container := ContainerCleanup(s, cfg, w);
    var image := ImageCleanup(s, cfg, w);
    ReleaseFacts(s, cfg);
    ContainerCleanupFacts(s, cfg, w);
    ImageCleanupFacts(s, cfg, w);
    NoLaunches(released, Stop);
    NoLaunches(released, Rm);
    NoLaunches(released, Rmi);
    LaunchesConcat(released, container.events, Stop);
    LaunchesConcat(released, container.events, Rm);
    LaunchesConcat(released, container.events, Rmi);
    LaunchesConcat(released + container.events, image.events, Stop);
    LaunchesConcat(released + container.events, image.events, Rm);
    LaunchesConcat(released + container.events, image.events, Rmi);
  }

  /** An "rm" entry in the actions changes nothing. */
  lemma RmActionIgnored(s: EngineState, cfg: DockerFileSettings, w: World)
    ensures Shutdown(s.(dockerActions := s.dockerActions + {RM_ARGUMENT}), cfg, w)
         == Shutdown(s.(dockerActions := s.dockerActions - {RM_ARGUMENT}), cfg, w)
  {
  }

  /** The cleanup destroys exactly the processes still held, with the command line they run. */
  lemma CleanupDestroysHeldProcesses(s: EngineState, cfg: DockerFileSettings, w: World, v: Verb, argv: Argv)
    requires v == Build || v == Run || v == Exec
    ensures Destroy(v, argv) in Shutdown(s, cfg, w).events <==>
      match v
      case Build => s.processBuild == Some(argv)
      case Run => s.processRun == Some(argv)
      case _ => s.processExec == Some(argv)
  {
    var released := ReleaseEvents(s, cfg);
    var container := ContainerCleanup(s, cfg, w);
    var image := ImageCleanup(s, cfg, w);
    ContainerCleanupFacts(s, cfg, w);
    ImageCleanupFacts(s, cfg, w);
    assert Destroy(v, argv) !in container.events;
    assert Destroy(v, argv) !in image.events;
  }

  /**
   * The cleanup deletes exactly the Dockerfile the engine holds, and only when it is not
   * kept; nothing else is deleted.
   */
  lemma CleanupDeletesDockerfile(s: EngineState, cfg: DockerFileSettings, w: World, p: FilePath)
    ensures DeleteFile(p) in Shutdown(s, cfg, w).events <==> s.dockerfile == Some(p) && !cfg.keepDockerFile
  {
    var container := ContainerCleanup(s, cfg, w);
    var image := ImageCleanup(s, cfg, w);
    ContainerCleanupFacts(s, cfg, w);
    ImageCleanupFacts(s, cfg, w);
    assert DeleteFile(p) !in container.events;
    assert DeleteFile(p) !in image.events;
  }

  // ---------------------------------------------------------------------------------
  // The whole eval
  // ---------------------------------------------------------------------------------

  /**
   * The `try` block: a failed write ends it at once, before the hook is installed; otherwise
   * it writes the Dockerfile into the working directory, installs the hook, and runs the
   * forward steps, which keep their promise.
   */
  lemma TryFacts(s: EngineState, b: Bindings, cfg: DockerFileSettings, execArgv: Argv, execAction: string, w: World)
    requires s.directory.Some?
    ensures var t := TryOf(s, b, cfg, execArgv, execAction, w);
      t.hook == w.writeOk
      && (!w.writeOk ==> t.events == [] && t.exit == Caught && t.state == s)
      && (w.writeOk ==>
            |t.events| >= 2
            && t.events[0] == WriteFile(FilePath(s.directory.value, FILENAME)) && t.events[1] == HookAdded
            && ForwardSummary(t.events[2..], t.exit, w)
            && t.state.dockerfile == Some(FilePath(s.directory.value, FILENAME)))
  {
    if w.writeOk {
      var path := FilePath(s.directory.value, FILENAME);
      var s1 := s.(dockerfile := Some(path));
      var buildArgv := BuildCommand(cfg, s.imageTagName, b);
      var runArgv := RunCommand(cfg, s.containerTagName, s.imageTagName, b);
      var f := ForwardPhase(s1, buildArgv, runArgv, execArgv, execAction, w);
      ForwardOrder(s1, buildArgv, runArgv, execArgv, execAction, w);
      assert ([WriteFile(path), HookAdded] + f.events)[2..] == f.events;
      SkippedStepsAssumeDone(s1, buildArgv, runArgv, execArgv, execAction, w);
      ForwardKeepsDockerfile(s1, buildArgv, runArgv, execArgv, execAction, w);
    }
  }

  lemma ForwardKeepsDockerfile(s: EngineState, buildArgv: Argv, runArgv: Argv, execArgv: Argv, execAction: string, w: World)
    ensures SameSetup(ForwardPhase(s, buildArgv, runArgv, execArgv, execAction, w).state, s)
  {
    var b := BuildPart(s, buildArgv, w);
    BuildPartFacts(s, buildArgv, w);
    RunPartFacts(b.state, runArgv, w);
    ExecPartFacts(RunPart(b.state, runArgv, w).state, execArgv, execAction, w);
  }

  /** Every process `events` launched exited 0. */
  predicate LaunchesSucceeded(events: seq<Event>, w: World) {
    forall i :: 0 <= i < |events| && events[i].Launch? ==> OutcomeOf(w, events[i]) == Exit(0)
  }

  lemma LaunchesSucceededConcat(a: seq<Event>, c: seq<Event>, w: World)
    ensures LaunchesSucceeded(a + c, w) <==> LaunchesSucceeded(a, w) && LaunchesSucceeded(c, w)
  {
    if LaunchesSucceeded(a + c, w) {
      forall i | 0 <= i < |a| && a[i].Launch? ensures OutcomeOf(w, a[i]) == Exit(0) {
        assert (a + c)[i] == a[i];
      }
      forall i | 0 <= i < |c| && c[i].Launch? ensures OutcomeOf(w, c[i]) == Exit(0) {
        assert (a + c)[|a| + i] == c[i];
      }
    }
    if LaunchesSucceeded(a, w) && LaunchesSucceeded(c, w) {
      forall i | 0 <= i < |a + c| && (a + c)[i].Launch? ensures OutcomeOf(w, (a + c)[i]) == Exit(0) {
        if i < |a| { assert (a + c)[i] == a[i]; } else { assert (a + c)[i] == c[i - |a|]; }
      }
    }
  }

  lemma AllSucceededLaunches(events: seq<Event>, w: World)
    requires forall i :: 0 <= i < |events| ==> events[i].Launch?
    ensures AllSucceeded(events, w) <==> LaunchesSucceeded(events, w)
  {
  }

  /** The cleanup ends without an exception exactly when every process it launched exited 0. */
  lemma CleanupSucceeds(s: EngineState, cfg: DockerFileSettings, w: World)
    ensures Shutdown(s, cfg, w).failure.None? <==> LaunchesSucceeded(Shutdown(s, cfg, w).events, w)
  {
    var released := ReleaseEvents(s, cfg);
    var container := ContainerCleanup(s, cfg, w);
    ReleaseLaunchesNothing(s, cfg, w);
    ContainerCleanupFacts(s, cfg, w);
    AllSucceededLaunches(container.events, w);
    LaunchesSucceededConcat(released, container.events, w);
    if container.failure.None? {
      var image := ImageCleanup(s, cfg, w);
      ImageCleanupFacts(s, cfg, w);
      AllSucceededLaunches(image.events, w);
      LaunchesSucceededConcat(released + container.events, image.events, w);
    }
  }

  /** Deleting the Dockerfile and destroying processes launch nothing. */
  lemma ReleaseLaunchesNothing(s: EngineState, cfg: DockerFileSettings, w: World)
    ensures LaunchesSucceeded(ReleaseEvents(s, cfg), w)
  {
    var released := ReleaseEvents(s, cfg);
    ReleaseFacts(s, cfg);
    forall i | 0 <= i < |released| ensures !released[i].Launch? {
      assert CleanupRank(released[i]) < 4;
    }
  }

  /** The cleanup neither writes the Dockerfile, nor touches the hook, nor launches a forward verb. */
  lemma CleanupEventKinds(s: EngineState, cfg: DockerFileSettings, w: World)
    ensures var events := Shutdown(s, cfg, w).events;
      forall i :: 0 <= i < |events| ==>
        !events[i].WriteFile? && events[i] != HookAdded && events[i] != HookRemoved
        && (events[i].Launch? ==> events[i].verb in {Stop, Rm, Rmi})
    ensures var events := Shutdown(s, cfg, w).events;
      !Launches(events, Build) && !Launches(events, Run) && !Launches(events, Exec)
  {
    var events := Shutdown(s, cfg, w).events;
    CleanupOrder(s, cfg, w);
    forall i | 0 <= i < |events|
      ensures !events[i].WriteFile? && events[i] != HookAdded && events[i] != HookRemoved
      ensures events[i].Launch? ==> events[i].verb in {Stop, Rm, Rmi}
    {
      assert CleanupRank(events[i]) < 7;
    }
  }

  /**
   * What `eval` hands back once its inputs resolved: an exception of the cleanup replaces
   * the outcome of the `try`; otherwise 0 after a block that returned, null after a caught
   * exception, the ScriptException of a failed step. It returns 0 exactly when the
   * Dockerfile was written and every process launched, forward or in the cleanup, exited 0.
   */
  lemma EvalResultMeaning(s: EngineState, b: Bindings, cfg: DockerFileSettings, tempDir: string,
                          execArgv: Argv, execAction: string, w: World)
    requires Prepare(s, b, tempDir).Ready?
    ensures var p := Prepare(s, b, tempDir).state;
      var t := TryOf(p, b, cfg, execArgv, execAction, w);
      var c := Shutdown(t.state, cfg, w);
      var r := EvalRun(s, b, cfg, tempDir, execArgv, execAction, w);
      r.state == t.state
      && (c.failure.Some? ==> r.result == ScriptErr(c.failure.value))
      && (c.failure.None? ==> r.result == TryResult(t.exit))
    ensures var r := EvalRun(s, b, cfg, tempDir, execArgv, execAction, w);
      (r.result.Ret? ==> r.result.value == 0)
      && (r.result == Ret(0) <==> w.writeOk && LaunchesSucceeded(r.events, w))
  {
    var p := Prepare(s, b, tempDir).state;
    var t := TryOf(p, b, cfg, execArgv, execAction, w);
    var c := Shutdown(t.state, cfg, w);
    var r := EvalRun(s, b, cfg, tempDir, execArgv, execAction, w);
    assert r == RemoveHook(t, c);
    TryFacts(p, b, cfg, execArgv, execAction, w);
    CleanupSucceeds(t.state, cfg, w);
    LaunchesSucceededConcat(t.events, c.events, w);
    LaunchesSucceededConcat(t.events + c.events, [HookRemoved], w);
    if w.writeOk {
      var f := t.events[2..];
      assert t.events == [t.events[0], t.events[1]] + f;
      LaunchesSucceededConcat([t.events[0], t.events[1]], f, w);
      AllSucceededLaunches(f, w);
    }
  }

  /**
   * The hook is installed exactly when the Dockerfile could be written, and removed exactly
   * when it was installed and the cleanup did not throw.
   */
  lemma HookPairing(s: EngineState, b: Bindings, cfg: DockerFileSettings, tempDir: string,
                    execArgv: Argv, execAction: string, w: World)
    requires Prepare(s, b, tempDir).Ready?
    ensures var r := EvalRun(s, b, cfg, tempDir, execArgv, execAction, w);
      var t := TryOf(Prepare(s, b, tempDir).state, b, cfg, execArgv, execAction, w);
      (HookAdded in r.events <==> w.writeOk)
      && (HookRemoved in r.events <==> w.writeOk && Shutdown(t.state, cfg, w).failure.None?)
  {
    var p := Prepare(s, b, tempDir).state;
    var t := TryOf(p, b, cfg, execArgv, execAction, w);
    var c := Shutdown(t.state, cfg, w);
    var r := EvalRun(s, b, cfg, tempDir, execArgv, execAction, w);
    TryFacts(p, b, cfg, execArgv, execAction, w);
    CleanupEventKinds(t.state, cfg, w);
    var tail: seq<Event> := if c.failure.None? && t.hook then [HookRemoved] else [];
    assert r.events == t.events + c.events + tail;
    HookEventsOfParts(t.events, c.events, tail);
    if w.writeOk {
      var f := t.events[2..];
      forall k | 2 <= k < |t.events| ensures t.events[k].Launch? {
        assert t.events[k] == f[k - 2];
      }
    }
  }

  lemma HookEventsOfParts(t: seq<Event>, c: seq<Event>, tail: seq<Event>)
    requires forall k :: 0 <= k < |c| ==> c[k] != HookAdded && c[k] != HookRemoved
    ensures HookAdded in t + c + tail <==> HookAdded in t || HookAdded in tail
    ensures HookRemoved in t + c + tail <==> HookRemoved in t || HookRemoved in tail
  {
    assert HookAdded !in c && HookRemoved !in c;
  }

  /** No delete after a write or a delete, and no write after a write, in `events`. */
  predicate WriteDeleteOrdered(events: seq<Event>) {
    forall i, j :: 0 <= i < j < |events| ==>
      !(events[i].DeleteFile? && events[j].DeleteFile?)
      && !(events[i].WriteFile? && events[j].WriteFile?)
      && !(events[i].DeleteFile? && events[j].WriteFile?)
  }

  lemma WriteDeleteOfParts(t: seq<Event>, c: seq<Event>, tail: seq<Event>)
    requires forall k :: 0 <= k < |t| ==> !t[k].DeleteFile? && (k > 0 ==> !t[k].WriteFile?)
    requires RanksWithin(c, 0, 7) && RanksIncrease(c)
    requires forall k :: 0 <= k < |tail| ==> !tail[k].WriteFile? && !tail[k].DeleteFile?
    ensures WriteDeleteOrdered(t + c + tail)
  {
    var all := t + c + tail;
    forall i, j | 0 <= i < j < |all|
      ensures !(all[i].DeleteFile? && all[j].DeleteFile?)
      ensures !(all[i].WriteFile? && all[j].WriteFile?)
      ensures !(all[i].DeleteFile? && all[j].WriteFile?)
    {
      if j < |t| {
        assert all[j] == t[j];
      } else if j < |t| + |c| {
        assert all[j] == c[j - |t|];
        assert CleanupRank(c[j - |t|]) < 7;
        if i >= |t| {
          assert all[i] == c[i - |t|];
        }
      } else {
        assert all[j] == tail[j - |t| - |c|];
      }
    }
  }

  /**
   * The Dockerfile is written at most once and deleted at most once per `eval`, and no
   * deletion comes before the write.
   */
  lemma DockerfileWriteDeleteOrder(s: EngineState, b: Bindings, cfg: DockerFileSettings, tempDir: string,
                                     execArgv: Argv, execAction: string, w: World)
    ensures WriteDeleteOrdered(EvalRun(s, b, cfg, tempDir, execArgv, execAction, w).events)
  {
    var p := Prepare(s, b, tempDir);
    if p.Ready? {
      var t := TryOf(p.state, b, cfg, execArgv, execAction, w);
      var c := Shutdown(t.state, cfg, w);
      var r := EvalRun(s, b, cfg, tempDir, execArgv, execAction, w);
      TryFacts(p.state, b, cfg, execArgv, execAction, w);
      CleanupOrder(t.state, cfg, w);
      if w.writeOk {
        var f := t.events[2..];
        forall k | 2 <= k < |t.events| ensures t.events[k].Launch? {
          assert t.events[k] == f[k - 2];
        }
      }
      if r.events == t.events + c.events {
        assert r.events == t.events + c.events + [];
        WriteDeleteOfParts(t.events, c.events, []);
      } else {
        assert r.events == t.events + c.events + [HookRemoved];
        WriteDeleteOfParts(t.events, c.events, [HookRemoved]);
      }
    }
  }

  /**
   * An `eval` past its resolution deletes the file its `try` left in `dockerfile`, unless it
   * is kept, and no other file: the Dockerfile it wrote in the working directory,
   * or, when the write failed, the one an earlier `eval` left in the field.
   */
  lemma EvalDeletesDockerfile(s: EngineState, b: Bindings, cfg: DockerFileSettings, tempDir: string,
                              execArgv: Argv, execAction: string, w: World, p: FilePath)
    requires Prepare(s, b, tempDir).Ready?
    ensures var dir := Prepare(s, b, tempDir).state.directory.value;
      var events := EvalRun(s, b, cfg, tempDir, execArgv, execAction, w).events;
      (w.writeOk ==> (DeleteFile(p) in events <==> p == FilePath(dir, FILENAME) && !cfg.keepDockerFile))
      && (!w.writeOk ==> (DeleteFile(p) in events <==> s.dockerfile == Some(p) && !cfg.keepDockerFile))
  {
    var ps := Prepare(s, b, tempDir).state;
    var t := TryOf(ps, b, cfg, execArgv, execAction, w);
    var c := Shutdown(t.state, cfg, w);
    TryFacts(ps, b, cfg, execArgv, execAction, w);
    EvalSplits(s, b, cfg, tempDir, execArgv, execAction, w);
    CleanupDeletesDockerfile(t.state, cfg, w, p);
    assert DeleteFile(p) !in t.events by {
      if w.writeOk {
        var f := t.events[2..];
        assert t.events == [t.events[0], t.events[1]] + f;
        forall k | 0 <= k < |f| ensures f[k].Launch? {
          assert t.events[k + 2] == f[k];
        }
      }
    }
    assert DeleteFile(p) !in HookTail(t, c);
  }

  /**
   * A nonzero build exit stops the forward steps, yet the image counts as created, so the
   * cleanup removes it when "rmi" is an action (here with no container to clean up).
   */
  lemma FailedBuildStillRemovesImage(s: EngineState, b: Bindings, cfg: DockerFileSettings, tempDir: string,
                                     execArgv: Argv, execAction: string, w: World, n: int)
    requires Prepare(s, b, tempDir).Ready?
    requires var a := Prepare(s, b, tempDir).state.dockerActions; BUILD_ARGUMENT in a && RMI_ARGUMENT in a
    requires !s.containerStarted
    requires w.writeOk && w.build == Exit(n) && n != 0
    ensures var r := EvalRun(s, b, cfg, tempDir, execArgv, execAction, w);
      !Launches(r.events, Run) && !Launches(r.events, Exec)
      && Launch(Rmi, RemoveImageCommand(cfg, r.state.imageTagName), None) in r.events
      && (w.rmi == Exit(0) ==> r.result == ScriptErr(BuildFailed(n)))
  {
    var p := Prepare(s, b, tempDir).state;
    var t := TryOf(p, b, cfg, execArgv, execAction, w);
    var c := Shutdown(t.state, cfg, w);
    var r := EvalRun(s, b, cfg, tempDir, execArgv, execAction, w);
    var path := FilePath(p.directory.value, FILENAME);
    var buildArgv := BuildCommand(cfg, p.imageTagName, b);
    BuildFailureStops(p.(dockerfile := Some(path)), buildArgv,
      RunCommand(cfg, p.containerTagName, p.imageTagName, b), execArgv, execAction, w, n);
    assert t.events == [WriteFile(path), HookAdded] + [Launch(Build, buildArgv, p.directory)];
    assert t.state.imageCreated && !t.state.containerStarted && t.hook;
    CleanupLaunches(t.state, cfg, w);
    CleanupEventKinds(t.state, cfg, w);
    EvalSplits(s, b, cfg, tempDir, execArgv, execAction, w);
    var image := ImageCleanup(t.state, cfg, w);
    ImageCleanupFacts(t.state, cfg, w);
    assert c.events == ReleaseEvents(t.state, cfg) + image.events;
    assert r.events[|t.events| + |ReleaseEvents(t.state, cfg)|] == image.events[0];
    forall v | v == Run || v == Exec ensures !Launches(r.events, v) {
      LaunchesConcat(t.events, c.events, v);
      LaunchesConcat(t.events + c.events, HookTail(t, c), v);
    }
  }

  /** A nonzero build exit ends the forward steps after the build, with the image counted as created. */
  lemma BuildFailureStops(s: EngineState, buildArgv: Argv, runArgv: Argv, execArgv: Argv, execAction: string, w: World, n: int)
    requires BUILD_ARGUMENT in s.dockerActions && w.build == Exit(n) && n != 0
    ensures var f := ForwardPhase(s, buildArgv, runArgv, execArgv, execAction, w);
      f.events == [Launch(Build, buildArgv, s.directory)] && f.exit == Thrown(BuildFailed(n))
      && f.state.imageCreated && f.state.containerStarted == s.containerStarted
  {
  }

  /**
   * Across an `eval` the two flags only become true: an image or a container of an earlier
   * `eval` still counts, and the cleanup of this one removes it when asked to.
   */
  lemma EvalKeepsFlags(s: EngineState, b: Bindings, cfg: DockerFileSettings, tempDir: string,
                       execArgv: Argv, execAction: string, w: World)
    ensures var r := EvalRun(s, b, cfg, tempDir, execArgv, execAction, w);
      (s.imageCreated ==> r.state.imageCreated) && (s.containerStarted ==> r.state.containerStarted)
  {
    var p := Prepare(s, b, tempDir);
    if p.Ready? && w.writeOk {
      var path := FilePath(p.state.directory.value, FILENAME);
      SkippedStepsAssumeDone(p.state.(dockerfile := Some(path)), BuildCommand(cfg, p.state.imageTagName, b),
        RunCommand(cfg, p.state.containerTagName, p.state.imageTagName, b), execArgv, execAction, w);
    }
  }

  /**
   * What the cleanup of an `eval` launches, in terms of the fields it ends with: stop when
   * the container counts as started and "stop" is an action, rm after a stop that exited 0,
   * rmi when the image counts as created, "rmi" is an action and the container cleanup did
   * not fail.
   */
  lemma EvalCleanupLaunches(s: EngineState, b: Bindings, cfg: DockerFileSettings, tempDir: string,
                            execArgv: Argv, execAction: string, w: World)
    requires Prepare(s, b, tempDir).Ready?
    ensures var r := EvalRun(s, b, cfg, tempDir, execArgv, execAction, w);
      var container := r.state.containerStarted && STOP_ARGUMENT in r.state.dockerActions;
      (Launches(r.events, Stop) <==> container)
      && (Launches(r.events, Rm) <==> container && w.stop == Exit(0))
      && (Launches(r.events, Rmi) <==>
            r.state.imageCreated && RMI_ARGUMENT in r.state.dockerActions
            && (container ==> w.stop == Exit(0) && w.rm == Exit(0)))
  {
    var p := Prepare(s, b, tempDir).state;
    var t := TryOf(p, b, cfg, execArgv, execAction, w);
    var c := Shutdown(t.state, cfg, w);
    var r := EvalRun(s, b, cfg, tempDir, execArgv, execAction, w);
    EvalSplits(s, b, cfg, tempDir, execArgv, execAction, w);
    CleanupLaunches(t.state, cfg, w);
    forall v | v == Stop || v == Rm || v == Rmi ensures Launches(r.events, v) <==> Launches(c.events, v) {
      TryLaunchesNoCleanupVerb(p, b, cfg, execArgv, execAction, w, v);
      LaunchesConcat(t.events, c.events, v);
      LaunchesConcat(t.events + c.events, HookTail(t, c), v);
    }
  }

  /** The hook removal that ends an `eval` whose cleanup did not throw, when the hook was installed. */
  function HookTail(t: TryRun, c: Cleanup): seq<Event> {
    if c.failure.None? && t.hook then [HookRemoved] else []
  }

  /** An `eval` past its resolution keeps the fields the `try` block left, and its events are the `try`'s, the cleanup's and the hook removal. */
  lemma EvalSplits(s: EngineState, b: Bindings, cfg: DockerFileSettings, tempDir: string,
                   execArgv: Argv, execAction: string, w: World)
    requires Prepare(s, b, tempDir).Ready?
    ensures var t := TryOf(Prepare(s, b, tempDir).state, b, cfg, execArgv, execAction, w);
      var c := Shutdown(t.state, cfg, w);
      var r := EvalRun(s, b, cfg, tempDir, execArgv, execAction, w);
      r.state == t.state && r.events == t.events + c.events + HookTail(t, c)
  {
  }

  /** The `try` block launches no cleanup verb. */
  lemma TryLaunchesNoCleanupVerb(p: EngineState, b: Bindings, cfg: DockerFileSettings, execArgv: Argv, execAction: string,
                                 w: World, v: Verb)
    requires p.directory.Some?
    requires v == Stop || v == Rm || v == Rmi
    ensures !Launches(TryOf(p, b, cfg, execArgv, execAction, w).events, v)
  {
    var t := TryOf(p, b, cfg, execArgv, execAction, w);
    TryFacts(p, b, cfg, execArgv, execAction, w);
    if w.writeOk {
      var f := t.events[2..];
      assert t.events == [t.events[0], t.events[1]] + f;
      LaunchesConcat([t.events[0], t.events[1]], f, v);
      assert !Launches(f, v) by {
        forall i | 0 <= i < |f| && f[i].Launch? ensures f[i].verb != v {
          assert ForwardRank(f[i].verb) < 3;
        }
      }
    }
  }

  /**
   * The hook removal as written differs from the guarded one in one case only: the
   * Dockerfile could not be written, so no hook exists, and the cleanup did not throw. There
   * `eval` as written ends in a NullPointerException instead of returning null.
   */
  lemma NullHookAsWritten(s: EngineState, b: Bindings, cfg: DockerFileSettings, tempDir: string,
                          execArgv: Argv, execAction: string, w: World)
    ensures var r := EvalRun(s, b, cfg, tempDir, execArgv, execAction, w);
      var a := EvalRunAsWritten(s, b, cfg, tempDir, execArgv, execAction, w);
      a.state == r.state && a.events == r.events
      && (a.result != r.result <==>
            Prepare(s, b, tempDir).Ready? && !w.writeOk
            && Shutdown(Prepare(s, b, tempDir).state, cfg, w).failure.None?)
      && (a.result != r.result ==> a.result == Crash(NullShutdownHook) && r.result == RetNull)
  {
    var p := Prepare(s, b, tempDir);
    if p.Ready? {
      TryFacts(p.state, b, cfg, execArgv, execAction, w);
    }
  }

  /**
   * The discrepancy on concrete inputs: a fresh engine, no bindings, and a Dockerfile that
   * cannot be written.
   */
  lemma NullHookCounterexample(cfg: DockerFileSettings, tempDir: string, execArgv: Argv, execAction: string)
    ensures var w := World(false, Exit(0), Exit(0), Exit(0), Exit(0), Exit(0), Exit(0));
      EvalRunAsWritten(INITIAL, map[], cfg, tempDir, execArgv, execAction, w).result == Crash(NullShutdownHook)
      && EvalRun(INITIAL, map[], cfg, tempDir, execArgv, execAction, w).result == RetNull
  {
    var w := World(false, Exit(0), Exit(0), Exit(0), Exit(0), Exit(0), Exit(0));
    NullHookAsWritten(INITIAL, map[], cfg, tempDir, execArgv, execAction, w);
    var p := Prepare(INITIAL, map[], tempDir);
    assert p.Ready? && !p.state.imageCreated && !p.state.containerStarted && p.state.dockerfile.None?;
    assert Shutdown(p.state, cfg, w) == Cleanup([], None);
  }
}
