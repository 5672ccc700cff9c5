/**
 * External processes and files as the engines see them: each process launch is answered
 * by an oracle, and every launch, file write or delete, process destroy and shutdown-hook
 * change is recorded as an event.
 */
module ProcessModel {
  import opened Wrappers

  type Argv = seq<string>

  /**
   * How one process launch ends: it starts and exits with a code (`waitFor` returns), it
   * fails to start (`start` throws IOException), or the waiting thread is interrupted
   * (`waitFor` throws InterruptedException after the process started).
   */
  datatype Outcome = Exit(code: int) | IOFail | Interrupted {
    predicate Started() { !IOFail? }
  }

  datatype FilePath = FilePath(dir: string, name: string)

  /** The docker or docker-compose sub-command a process runs. */
  datatype Verb = Build | Run | Exec | Stop | Rm | Rmi | ComposeUp | ComposeDown

  /**
   * An observable step. `Launch.dir` is the working directory given to the process
   * builder, `None` when the process inherits the JVM's.
   */
  datatype Event =
    | WriteFile(path: FilePath)
    | Launch(verb: Verb, argv: Argv, dir: Option<string>)
    | DeleteFile(path: FilePath)
    | Destroy(verb: Verb, argv: Argv)
    | HookAdded
    | HookRemoved
    | ClearInterrupt

  /** Why a `ScriptException` was thrown; the message names the step and the exit code. */
  datatype Failure =
    | BuildFailed(code: int)   // "Docker File Build failed with exit code n"
    | RunFailed(code: int)     // "Docker Run failed with exit code n"
    | ExecFailed(code: int)    // "Docker Exec failed with exit code n"
    | StopError                // "Error when running docker stop"
    | StopFailed(code: int)    // "Docker stop failed with exit code n"
    | RmError                  // "Error when running docker rm"
    | RmFailed(code: int)      // "Docker rm failed with exit code n"
    | RmiError                 // "Error when running docker rmi"
    | RmiFailed(code: int)     // "Docker rmi failed with exit code n"
    | ComposeFailed(code: int) // "Docker Compose failed with exit code n"

  /** How the `try` block of an `eval` ends before its `finally` runs. */
  datatype TryExit =
    | Returned(value: int)     // `return exitValue`
    | Caught                   // IOException or InterruptedException, logged
    | Thrown(failure: Failure) // ScriptException, propagating

  /** What `eval` hands back: an Integer, null, a ScriptException, or a runtime exception. */
  datatype EvalResult = Ret(value: int) | RetNull | ScriptErr(failure: Failure) | Crash(fault: Fault)

  /**
   * A runtime exception that escapes an `eval`: an unchecked cast of a binding to the
   * wrong type (ClassCastException), a call on a null binding, or removing a null
   * shutdown hook (both NullPointerException).
   */
  datatype Fault = BadBinding(key: string) | NullShutdownHook

  /** What the caller sees when the `finally` block completes normally. */
  function TryResult(e: TryExit): (r: EvalResult)
    ensures e.Returned? ==> r == Ret(e.value)
    ensures e.Caught? ==> r == RetNull
    ensures e.Thrown? ==> r == ScriptErr(e.failure)
  {
    match e
    case Returned(v) => Ret(v)
    case Caught => RetNull
    case Thrown(f) => ScriptErr(f)
  }

  /** Some event launches a process running `v`. */
  predicate Launches(events: seq<Event>, v: Verb) {
    exists i :: 0 <= i < |events| && events[i].Launch? && events[i].verb == v
  }

  /** A trace launches `v` when one of its two parts does. */
  lemma LaunchesConcat(a: seq<Event>, c: seq<Event>, v: Verb)
    ensures Launches(a + c, v) <==> Launches(a, v) || Launches(c, v)
  {
    if Launches(a + c, v) {
      var i :| 0 <= i < |a + c| && (a + c)[i].Launch? && (a + c)[i].verb == v;
      if i >= |a| {
        assert c[i - |a|] == (a + c)[i];
      }
    }
    if Launches(c, v) {
      var i :| 0 <= i < |c| && c[i].Launch? && c[i].verb == v;
      assert (a + c)[i + |a|] == c[i];
    }
    if Launches(a, v) {
      var i :| 0 <= i < |a| && a[i].Launch? && a[i].verb == v;
      assert (a + c)[i] == a[i];
    }
  }

  lemma AppendAssoc(a: seq<Event>, b: seq<Event>, c: seq<Event>)
    ensures a + (b + c) == a + b + c
  {
  }
}
