# ProActive docker script engines, modelled in Dafny

The ProActive scheduler runs a task's script through a JSR-223 script engine. This
repository provides two such engines:

- The **Dockerfile engine** (`DockerFileScriptEngine`). It writes the script as a
  `Dockerfile` into the task's scratch space. It then runs `docker build`, `docker run` and
  an exec step, each only if its action is enabled. On every exit path it cleans up: it
  deletes the Dockerfile, destroys held processes, stops and removes the container, and
  removes the image.
- The **docker-compose engine** (`DockerComposeScriptEngine`). It writes the script as a
  compose file, runs `docker-compose up` once, and always attempts `docker-compose down`
  afterwards.

Both engines read their settings from a property loader. A JVM system property wins over
the configuration file, which wins over a built-in default.

This project models that core:

- **Processes and files.** Every external process is an oracle outcome: `Exit(code)`, a
  failure to start (`IOFail`), or an interrupted wait (`Interrupted`). Each engine object
  appends what it does to a `log` trace: file writes and deletes, process launches with
  their command line and working directory, `destroy` calls, and shutdown-hook changes.
- **Specification functions.** The Dockerfile engine is specified by functions over its
  fields (`DockerFileLifecycle`). The imperative engine class (`DockerFileEngine`) is proved
  to change its fields and its trace exactly as those functions say. The lemmas in
  `DockerFileLifecycleProperties` then state what the functions promise.
- **The compose engine** is modelled the same way: `DockerComposeEngine` holds the
  function and the class, and `DockerComposeEvalProperties` holds the lemmas.
- **Command lines.** `DockerFileCommands` builds the docker argument vectors one `add` at a
  time, and proves the layout of each vector and the option splitting.
- **Settings.** `PropertySources`, `DockerFileProperties` and `DockerComposeProperties`
  hold the lookup priority, the defaults and the loader classes.
- **Java library behaviour.** `JavaText` models the parts of `java.lang.String` the core
  uses: `split` with Java's dropping of trailing empty strings, `toLowerCase`, `contains`.

Cleanup failures are treated differently by the two engines. In the Dockerfile engine, a
failing `docker stop`, `rm` or `rmi` throws a `ScriptException` out of `handleShutdown`.
That exception replaces the outcome of the `try` block and skips the rest of the
cleanup, including the shutdown-hook removal (`DockerFileLifecycle.Shutdown`, and the
first branch of `RemoveHookAsWritten` and `RemoveHook`). The compose engine catches
whatever `docker-compose down` throws.

The model of the Dockerfile `eval` comes in two versions that differ only at the
shutdown-hook removal (see "## Findings"):
- `DockerFileLifecycle.EvalRunAsWritten` follows the code as written.
- `DockerFileLifecycle.EvalRun` guards the removal, as the compose engine does.

The engine class and the lemmas about `eval` use the guarded version.
`DockerFileLifecycleProperties.NullHookAsWritten` relates the two.

## Model

| member | source | states |
|---|---|---|
| DockerFileEngine.DockerFileScriptEngine.constructor | src/main/java/jsr223/docker/file/DockerFileScriptEngine.java:82-124 | A new engine has tags "image" and "container", no actions, both flags false, and no process handles, Dockerfile or directory. |
| DockerFileEngine.DockerFileScriptEngine.UpdateDockerActions | src/main/java/jsr223/docker/file/DockerFileScriptEngine.java:351-360 | The action set becomes the default set, or the parsed `docker-actions` entry when there is one. A generic-information binding that is not a map faults, after the default set was assigned. |
| DockerFileEngine.DockerFileScriptEngine.UpdateImageTagName | src/main/java/jsr223/docker/file/DockerFileScriptEngine.java:332-349 | The image tag follows `TagFor` on the previous tag. A cast fault leaves the value that was assigned before it. |
| DockerFileEngine.DockerFileScriptEngine.UpdateContainerTagName | src/main/java/jsr223/docker/file/DockerFileScriptEngine.java:362-379 | The same rule as the image tag, for the container tag. |
| DockerFileEngine.DockerFileScriptEngine.RunDockerBuildCommand | src/main/java/jsr223/docker/file/DockerFileScriptEngine.java:307-330 | The build is launched in the working directory, and the image counts as created once it starts. A nonzero exit throws `BuildFailed` with the handle still held. Only exit 0 drops the handle. |
| DockerFileEngine.DockerFileScriptEngine.RunDockerRunCommand | src/main/java/jsr223/docker/file/DockerFileScriptEngine.java:257-281 | The container counts as started once the process starts. The handle is dropped after `waitFor`, and a nonzero exit throws `RunFailed`. |
| DockerFileEngine.DockerFileScriptEngine.RunDockerExecCommand | src/main/java/jsr223/docker/file/DockerFileScriptEngine.java:283-305 | Like run, without a flag; a nonzero exit throws `ExecFailed`. |
| DockerFileEngine.DockerFileScriptEngine.StopAndRemoveContainer | src/main/java/jsr223/docker/file/DockerFileScriptEngine.java:407-469 | `stop` is launched first. `rm` follows only after a stop that exited 0. A failure to start or wait, or a nonzero exit, gives the matching exception. |
| DockerFileEngine.DockerFileScriptEngine.RemoveImage | src/main/java/jsr223/docker/file/DockerFileScriptEngine.java:471-501 | `rmi` of the image, with its exception cases. |
| DockerFileEngine.DockerFileScriptEngine.ReleaseResources | src/main/java/jsr223/docker/file/DockerFileScriptEngine.java:509-529 | The trace grows by `ReleaseEvents`. First the Dockerfile is deleted when it is set and not kept (`CleanupDeletesDockerfile`). Then each held build, run or exec process is destroyed with its command line (`CleanupDestroysHeldProcesses`). |
| DockerFileEngine.DockerFileScriptEngine.HandleShutdown | src/main/java/jsr223/docker/file/DockerFileScriptEngine.java:503-540 | The trace grows by the events of `Shutdown`: release, container cleanup, image cleanup. The returned failure is the first exception of those steps. |
| DockerFileEngine.DockerFileScriptEngine.RunForwardSteps | src/main/java/jsr223/docker/file/DockerFileScriptEngine.java:223-243 | Fields, trace and exit follow `ForwardPhase`: build, run, exec, each only when enabled and when the step before it went on. |
| DockerFileEngine.DockerFileScriptEngine.ResolveDirectory | src/main/java/jsr223/docker/file/DockerFileScriptEngine.java:184-193 | The working directory is the scratch string, else the temporary directory. A non-string scratch binding faults and keeps the field. |
| DockerFileEngine.DockerFileScriptEngine.ResolveInputs | src/main/java/jsr223/docker/file/DockerFileScriptEngine.java:149-193 | Actions, tags, bindings and directory become `Prepare`'s state. It faults exactly when `Prepare` aborts, with the same fault. |
| DockerFileEngine.DockerFileScriptEngine.TryBlockSteps | src/main/java/jsr223/docker/file/DockerFileScriptEngine.java:204-243 | Fields, trace, exit and hook follow `TryBlock`: write the Dockerfile, add the hook, then the forward steps. A failed write ends the block at once. |
| DockerFileEngine.DockerFileScriptEngine.Eval | src/main/java/jsr223/docker/file/DockerFileScriptEngine.java:146-255 | Fields, trace and result equal `EvalRun` of the old fields. This is `eval` with the hook removal at line 251 guarded (see "## Findings"). The code as written is `DockerFileLifecycle.EvalRunAsWritten`; `NullHookAsWritten` relates the two. The lemmas below state what `EvalRun` means. |
| DockerFileLifecycle.ParseActions | src/main/java/jsr223/docker/file/DockerFileScriptEngine.java:357 | The action names of a `split("\\s*,\\s*")` result, as a set. |
| DockerFileLifecycle.ActionsFor | src/main/java/jsr223/docker/file/DockerFileScriptEngine.java:351-360 | The action set `updateDockerActions` assigns: the default set, or the parsed `docker-actions` entry. A generic-information binding that is not a map faults, with the default set already in place. |
| DockerFileLifecycle.TagFor | src/main/java/jsr223/docker/file/DockerFileScriptEngine.java:332-349 | The tag `updateImageTagName` / `updateContainerTagName` leaves: the job/task tag when both ids are variables, overridden by the generic-information entry. A cast fault keeps the value of the assignments before it. |
| DockerFileLifecycle.Prepare | src/main/java/jsr223/docker/file/DockerFileScriptEngine.java:147-193 | The fields after the part of `eval` before the `try`: actions, image tag, container tag, bindings and directory, in that order. It stops at the first fault, with the fields assigned so far. |
| DockerFileLifecycle.BuildStep | src/main/java/jsr223/docker/file/DockerFileScriptEngine.java:307-330 | `runDockerBuildCommand` as a transition: launch in the working directory. Once started, the handle is held and the image counts as created. Only exit 0 drops the handle and lets the next step run. |
| DockerFileLifecycle.RunStep | src/main/java/jsr223/docker/file/DockerFileScriptEngine.java:257-281 | `runDockerRunCommand`: launch, hold the handle and count the container as started. An exit drops the handle; a nonzero exit throws `RunFailed`. |
| DockerFileLifecycle.ExecStep | src/main/java/jsr223/docker/file/DockerFileScriptEngine.java:283-305 | `runDockerExecCommand`: like run, without a flag; a nonzero exit throws `ExecFailed`. |
| DockerFileLifecycle.ForwardPhase | src/main/java/jsr223/docker/file/DockerFileScriptEngine.java:223-243 | Build, run and exec, each gated by its action and run only if the step before it continued. A skipped build or run sets its flag. A phase that runs to the end returns 0. |
| DockerFileLifecycle.TryBlock | src/main/java/jsr223/docker/file/DockerFileScriptEngine.java:204-243 | The `try` block: a failed write is caught at once. Otherwise the Dockerfile is recorded, the hook added, and the forward phase run. |
| DockerFileLifecycle.TryOf | src/main/java/jsr223/docker/file/DockerFileScriptEngine.java:156-161 | The `try` block with the build and run command lines built from the resolved tags. |
| DockerFileLifecycle.StopAndRemoveStep | src/main/java/jsr223/docker/file/DockerFileScriptEngine.java:407-469 | `stopAndRemoveContainer`: stop, then rm only after a stop that exited 0. A failure to start or wait gives `StopError` / `RmError`; a nonzero exit gives `StopFailed` / `RmFailed`. |
| DockerFileLifecycle.RemoveImageStep | src/main/java/jsr223/docker/file/DockerFileScriptEngine.java:471-501 | `removeImage`: rmi, with `RmiError` for a failure to start or wait and `RmiFailed` for a nonzero exit. |
| DockerFileLifecycle.ReleaseEvents | src/main/java/jsr223/docker/file/DockerFileScriptEngine.java:509-529 | The first part of `handleShutdown`: delete the Dockerfile when it is set and not kept, then destroy each held handle. `CleanupDeletesDockerfile` and `CleanupDestroysHeldProcesses` state both rules as all-inputs iffs. |
| DockerFileLifecycle.ContainerCleanup | src/main/java/jsr223/docker/file/DockerFileScriptEngine.java:531-533 | The container step of `handleShutdown`, taken when the container counts as started and "stop" is an action. |
| DockerFileLifecycle.ImageCleanup | src/main/java/jsr223/docker/file/DockerFileScriptEngine.java:535-537 | The image step of `handleShutdown`, taken when the image counts as created and "rmi" is an action. |
| DockerFileLifecycle.Shutdown | src/main/java/jsr223/docker/file/DockerFileScriptEngine.java:503-540 | `handleShutdown`: release, then the container step, then the image step only if the container step did not throw. |
| DockerFileLifecycle.RemoveHookAsWritten | src/main/java/jsr223/docker/file/DockerFileScriptEngine.java:248-252 | The end of the `finally` block as written. A cleanup exception replaces the outcome. Otherwise the hook is removed unguarded, and a null hook (failed write) throws NullPointerException. |
| DockerFileLifecycle.RemoveHook | src/main/java/jsr223/docker/file/DockerFileScriptEngine.java:248-252 | The same with the removal guarded by `shutdownHook != null`, as the compose engine does: a failed write then leaves the `try`'s null result. |
| DockerFileLifecycle.EvalRunAsWritten | src/main/java/jsr223/docker/file/DockerFileScriptEngine.java:146-255 | `eval` as written: a fault before the `try` crashes with nothing logged. Otherwise the `try` block, `handleShutdown`, and the unguarded hook removal. |
| DockerFileLifecycle.EvalRun | src/main/java/jsr223/docker/file/DockerFileScriptEngine.java:146-255 | `eval` with the guarded hook removal; the corrected version the engine class is proved against. |
| DockerFileCommands.SplitDelimiter | src/main/java/jsr223/docker/file/DockerFileCommandCreator.java:203-206 | The delimiter: the `docker-file-options-split-regex` entry when present, else " ". |
| DockerFileCommands.OptionsIn | src/main/java/jsr223/docker/file/DockerFileCommandCreator.java:203-210 | The options under a key: the entry split on the delimiter, or none when the key is absent. |
| DockerFileCommands.DockerCommandOptions | src/main/java/jsr223/docker/file/DockerFileCommandCreator.java:200-212 | `getDockerCommandOptions`: `OptionsIn` of the extracted generic information. |
| DockerFileCommands.Prefix | src/main/java/jsr223/docker/file/DockerFileCommandCreator.java:179-187 | The sudo command when configured, then the docker command. |
| DockerFileCommands.BuildCommand | src/main/java/jsr223/docker/file/DockerFileCommandCreator.java:84-104 | The build argument vector, in the closed form the builder is proved equal to. |
| DockerFileCommands.RunCommand | src/main/java/jsr223/docker/file/DockerFileCommandCreator.java:106-126 | The run argument vector. |
| DockerFileCommands.StopCommand | src/main/java/jsr223/docker/file/DockerFileCommandCreator.java:128-142 | The stop argument vector. |
| DockerFileCommands.RemoveCommand | src/main/java/jsr223/docker/file/DockerFileCommandCreator.java:144-158 | The rm argument vector, with the options of the `docker-rmi-options` key. |
| DockerFileCommands.RemoveImageCommand | src/main/java/jsr223/docker/file/DockerFileCommandCreator.java:160-171 | The rmi argument vector, without options. |
| DockerFileProperties.Resolve | src/main/java/jsr223/docker/file/DockerFilePropertyLoader.java:95-102 | The five settings `reload` computes by the priority lookup; the flags are parsed by `parseBoolean`. |
| DockerComposeProperties.IsMacOrWindows | src/main/java/jsr223/docker/compose/utils/DockerComposePropertyLoader.java:96-97 | The lower-cased `os.name` contains "windows" or "mac os". |
| DockerComposeProperties.Resolve | src/main/java/jsr223/docker/compose/utils/DockerComposePropertyLoader.java:96-109 | The five settings `reload` computes. The compose command key and default follow the OS test, and keep defaults to "true". |
| DockerComposeEngine.ComposeTryBlock | src/main/java/jsr223/docker/compose/DockerComposeScriptEngine.java:150-198 | The compose `try` block. A failed write is caught with no file. A failed start of up is caught before any hook. An interrupt is caught after the hook. A nonzero exit throws `ComposeFailed(code)`; exit 0 returns 0. |
| DockerComposeEngine.ComposeFinally | src/main/java/jsr223/docker/compose/DockerComposeScriptEngine.java:199-217 | The compose `finally` block: clear the interrupt flag, launch down (its outcome ignored), delete the file when written and not kept, remove the hook when installed. |
| DockerComposeEngine.ComposeEval | src/main/java/jsr223/docker/compose/DockerComposeScriptEngine.java:137-220 | The compose `eval`: a failed scratch cast crashes before the `try`. Otherwise the `try` block, then the `finally` block, in the chosen directory. |
| JavaText.Split | src/main/java/jsr223/docker/file/DockerFileCommandCreator.java:209 | `String.split` with a literal delimiter. An empty input gives [""]. An empty delimiter splits into characters. Trailing empty strings are dropped. |
| JavaText.SplitOnCommas | src/main/java/jsr223/docker/file/DockerFileScriptEngine.java:357 | `split("\\s*,\\s*")`: comma fields with the whitespace next to each comma removed and trailing empty strings dropped. |
| JavaText.ToLower | src/main/java/jsr223/docker/compose/utils/DockerComposePropertyLoader.java:96 | `toLowerCase` on ASCII letters. |
| DockerFileLifecycleProperties.DefaultActionSet | src/main/java/jsr223/docker/file/DockerFileScriptEngine.java:68 | Splitting "build,run,stop,rmi" gives exactly {build, run, stop, rmi}. |
| DockerFileLifecycleProperties.ActionsWithoutOverride | src/main/java/jsr223/docker/file/DockerFileScriptEngine.java:351-360 | With no `docker-actions` entry, the actions are the default set. |
| DockerFileLifecycleProperties.ActionsOverrideReplaces | src/main/java/jsr223/docker/file/DockerFileScriptEngine.java:356-357 | A `docker-actions` value of names joined by commas, with whitespace around the commas, gives exactly those names. Nothing of the default set remains. |
| DockerFileLifecycleProperties.ActionNamesHoldNoComma | src/main/java/jsr223/docker/file/DockerFileScriptEngine.java:352-357 | No action name holds a comma. |
| DockerFileLifecycleProperties.TagResolution | src/main/java/jsr223/docker/file/DockerFileScriptEngine.java:332-379 | A resolved tag is the generic-information entry if present, else `<base>_<job>t<task>` when both ids are variables, else the previous value. The resolution faults exactly when the variables or generic-information binding is not a map. |
| DockerFileLifecycleProperties.JobTaskTagsExample | src/test/java/jsr223/docker/file/DockerFileScriptEngineTest.java:186-210 | Job 1 and task 2, with an empty generic-information map, give "image_1t2" and "container_1t2". |
| DockerFileLifecycleProperties.CrashOnlyOnBadBinding | src/main/java/jsr223/docker/file/DockerFileScriptEngine.java:147-193 | `eval` crashes before the `try` exactly when the generic-information, variables or scratch binding has the wrong type. It has then logged nothing. |
| DockerFileLifecycleProperties.ForwardOrder | src/main/java/jsr223/docker/file/DockerFileScriptEngine.java:223-243 | Forward launches come in the order build, run, exec. Every launch but the last exited 0. The phase returns 0 exactly when all launched steps exited 0. Otherwise the last launch explains the exit: null for a failed start or interrupt, the step's exception with its code for a nonzero exit. |
| DockerFileLifecycleProperties.SkippedStepsAssumeDone | src/main/java/jsr223/docker/file/DockerFileScriptEngine.java:225-237 | Without "build", nothing is built and the image counts as created. Without "run", nothing is run and the container counts as started. A started process sets its flag whatever its exit; flags are never reset. |
| DockerFileLifecycleProperties.BuildFailureStops | src/main/java/jsr223/docker/file/DockerFileScriptEngine.java:322-326 | A nonzero build exit ends the forward steps with `BuildFailed(n)`, after the build only, and with the image counted as created. |
| DockerFileLifecycleProperties.CleanupOrder | src/main/java/jsr223/docker/file/DockerFileScriptEngine.java:509-537 | The cleanup events come in the strict order delete, destroy build, run, exec, stop, rm, rmi, each at most once. |
| DockerFileLifecycleProperties.CleanupLaunches | src/main/java/jsr223/docker/file/DockerFileScriptEngine.java:531-537 | stop runs iff the container started and "stop" is an action. rm runs iff that stop exited 0. rmi runs iff the image was created, "rmi" is an action and the container cleanup did not fail. The cleanup throws nothing iff every step it runs exits 0. |
| DockerFileLifecycleProperties.RmActionIgnored | src/main/java/jsr223/docker/file/DockerFileScriptEngine.java:531-537 | Adding "rm" to the actions does not change the cleanup. |
| DockerFileLifecycleProperties.CleanupDestroysHeldProcesses | src/main/java/jsr223/docker/file/DockerFileScriptEngine.java:519-529 | A build, run or exec process is destroyed iff its handle is still held, with that handle's command line. |
| DockerFileLifecycleProperties.CleanupDeletesDockerfile | src/main/java/jsr223/docker/file/DockerFileScriptEngine.java:509-517 | The cleanup deletes a file exactly when it is the Dockerfile the engine holds and the Dockerfile is not kept; no other file is deleted. |
| DockerFileLifecycleProperties.CleanupSucceeds | src/main/java/jsr223/docker/file/DockerFileScriptEngine.java:407-501 | The cleanup throws nothing exactly when every process it launched exited 0. |
| DockerFileLifecycleProperties.CleanupEventKinds | src/main/java/jsr223/docker/file/DockerFileScriptEngine.java:503-540 | The cleanup writes no file, touches no hook and launches only stop, rm and rmi. |
| DockerFileLifecycleProperties.TryFacts | src/main/java/jsr223/docker/file/DockerFileScriptEngine.java:204-243 | A failed write ends the `try` with nothing logged, a caught exception and unchanged fields. Otherwise the Dockerfile is written into the working directory first, the hook is added second, and the forward steps keep `ForwardSummary`. |
| DockerFileLifecycleProperties.EvalResultMeaning | src/main/java/jsr223/docker/file/DockerFileScriptEngine.java:243-254 | A cleanup exception replaces the `try`'s outcome; otherwise the `try`'s outcome stands. `eval` returns 0 iff the write succeeded and every launched process, forward or cleanup, exited 0. |
| DockerFileLifecycleProperties.HookPairing | src/main/java/jsr223/docker/file/DockerFileScriptEngine.java:211-251 | The hook is added iff the Dockerfile was written. It is removed iff it was added and the cleanup did not throw. |
| DockerFileLifecycleProperties.DockerfileWriteDeleteOrder | src/main/java/jsr223/docker/file/DockerFileScriptEngine.java:206-252 | Order only: within one `eval`, the Dockerfile is written at most once and deleted at most once, and no delete comes before the write. Which file is deleted, and when, is `EvalDeletesDockerfile`. |
| DockerFileLifecycleProperties.EvalDeletesDockerfile | src/main/java/jsr223/docker/file/DockerFileScriptEngine.java:206-252 | An `eval` whose write succeeded deletes exactly the Dockerfile it wrote in the working directory, unless the Dockerfile is kept. After a failed write it deletes exactly the file an earlier `eval` left in the field, on the same condition. |
| DockerFileLifecycleProperties.FailedBuildStillRemovesImage | src/main/java/jsr223/docker/file/DockerFileScriptEngine.java:311-313 | After a nonzero build exit with "build" and "rmi" enabled, `rmi` of the image is still launched. A successful rmi leaves `BuildFailed(n)` as the result. |
| DockerFileLifecycleProperties.EvalKeepsFlags | src/main/java/jsr223/docker/file/DockerFileScriptEngine.java:108-110 | Across an `eval`, `imageCreated` and `containerStarted` can only go from false to true. |
| DockerFileLifecycleProperties.EvalCleanupLaunches | src/main/java/jsr223/docker/file/DockerFileScriptEngine.java:248-252 | The whole `eval` launches stop, rm and rmi exactly as `CleanupLaunches` says, in terms of the fields the `try` block left. |
| DockerFileLifecycleProperties.NullHookAsWritten | src/main/java/jsr223/docker/file/DockerFileScriptEngine.java:248-252 | The unguarded hook removal differs from the guarded one in one case only: a failed write with a cleanup that did not throw. There it gives a NullPointerException instead of null. |
| DockerFileLifecycleProperties.NullHookCounterexample | src/main/java/jsr223/docker/file/DockerFileScriptEngine.java:251 | A fresh engine, no bindings and a failed write: as written, `eval` crashes; guarded, it returns null. |
| ProcessModel.TryResult | src/main/java/jsr223/docker/file/DockerFileScriptEngine.java:243-254 | A returned value becomes the result, a caught exception null, a thrown one the ScriptException. |
| ScriptBindings.ScratchDirectory | src/main/java/jsr223/docker/compose/DockerComposeScriptEngine.java:137-147 | The directory is the scratch string if one is bound, else the temporary directory (no binding or null). Any other type faults and keeps the old value. |
| DockerFileCommands.ExtractGenericInfo | src/main/java/jsr223/docker/file/DockerFileCommandCreator.java:189-198 | Generic information that is absent or not a map reads as the empty map. |
| DockerFileCommands.NoOptionsWithoutKey | src/main/java/jsr223/docker/file/DockerFileCommandCreator.java:200-211 | A key missing from generic information gives no options, and no error. |
| DockerFileCommands.OptionsRejoin | src/main/java/jsr223/docker/file/DockerFileCommandCreator.java:209 | With a non-empty delimiter, no option contains it. Joining the options with it gives back the raw value unless that value ends with the delimiter. |
| DockerFileCommands.OptionsOfJoin | src/main/java/jsr223/docker/file/DockerFileCommandCreator.java:203-209 | Tokens joined by the configured delimiter split back into exactly those tokens. |
| DockerFileCommands.EmptyValueGivesEmptyArgument | src/main/java/jsr223/docker/file/DockerFileCommandCreator.java:208-209 | An empty option value gives a single empty argument. |
| DockerFileCommands.OptionsFromGenericInfo | src/main/java/jsr223/docker/file/DockerFileCommandCreator.java:189-201 | Generic information bound as a map is read as it is. |
| DockerFileCommands.DefaultDelimiterExample | src/test/java/jsr223/docker/file/DockerFileScriptEngineTest.java:135 | "-t -d" with the default delimiter gives ["-t", "-d"]. |
| DockerFileCommands.CustomDelimiterExample | src/test/java/jsr223/docker/file/DockerFileScriptEngineTest.java:155-157 | With delimiter "!SPLIT!", "/bin/sh!SPLIT!-c!SPLIT!<cmd>" gives ["/bin/sh", "-c", <cmd>], spaces in <cmd> kept. |
| DockerFileCommands.PrefixShape | src/main/java/jsr223/docker/file/DockerFileCommandCreator.java:179-187 | The prefix is the sudo command then docker when sudo is on, and docker alone otherwise. |
| DockerFileCommands.CommandLayouts | src/main/java/jsr223/docker/file/DockerFileCommandCreator.java:84-171 | The argument vectors have these shapes: build = prefix, "build", build options, "-t", image, ".". run = prefix, "run", run options, "--name", container, image. stop = prefix, "stop", stop options, container. rm = prefix, "rm", the *rmi* options, container. rmi = prefix, "rmi", image. |
| DockerFileCommands.VerbFollowsPrefix | src/main/java/jsr223/docker/file/DockerFileCommandCreator.java:84-171 | The verb comes right after the prefix in every command; rmi's image comes right after the verb. |
| DockerFileCommands.AddSudoAndDockerFileCommand | src/main/java/jsr223/docker/file/DockerFileCommandCreator.java:179-187 | Appends the prefix to the given list. |
| DockerFileCommands.CreateDockerBuildExecutionCommand | src/main/java/jsr223/docker/file/DockerFileCommandCreator.java:84-104 | The list built add by add is `BuildCommand`. |
| DockerFileCommands.CreateDockerRunExecutionCommand | src/main/java/jsr223/docker/file/DockerFileCommandCreator.java:106-126 | The list built add by add is `RunCommand`. |
| DockerFileCommands.CreateDockerStopExecutionCommand | src/main/java/jsr223/docker/file/DockerFileCommandCreator.java:128-142 | The list built add by add is `StopCommand`. |
| DockerFileCommands.CreateDockerRemoveExecutionCommand | src/main/java/jsr223/docker/file/DockerFileCommandCreator.java:144-158 | The list built add by add is `RemoveCommand`. |
| DockerFileCommands.CreateDockerRemoveImage | src/main/java/jsr223/docker/file/DockerFileCommandCreator.java:160-171 | The list built add by add is `RemoveImageCommand`. |
| PropertySources.Loaded | src/main/java/jsr223/docker/file/DockerFilePropertyLoader.java:84-93 | A missing configuration resource gives an empty property map; a loaded one gives its entries. |
| PropertySources.OverriddenProperty | src/main/java/jsr223/docker/file/DockerFilePropertyLoader.java:105-111 | The system property if set, else the file property, else the default. |
| PropertySources.PriorityIsLayering | src/main/java/jsr223/docker/compose/utils/DockerComposePropertyLoader.java:112-118 | That lookup equals reading the key from the default, overridden by the file, overridden by the system properties. |
| PropertySources.ParseBooleanSpellings | src/main/java/jsr223/docker/file/DockerFilePropertyLoader.java:100-102 | A flag is true exactly for the 16 case variants of "true". |
| DockerFileProperties.ResolveIsLayeredLookup | src/main/java/jsr223/docker/file/DockerFilePropertyLoader.java:95-111 | All five settings come from one layered map: defaults, then the file, then the system properties. |
| DockerFileProperties.UnconfiguredDefaults | src/main/java/jsr223/docker/file/DockerFilePropertyLoader.java:96-102 | With no file and no system properties: command "docker", sudo "/usr/bin/sudo", no sudo, host "", keep false. |
| DockerFileProperties.SystemPropertiesOverrideFile | src/main/java/jsr223/docker/file/DockerFilePropertyLoader.java:105-107 | When every key is a system property, the file has no effect. |
| DockerFileProperties.OnlySettingKeysMatter | src/main/java/jsr223/docker/file/DockerFilePropertyLoader.java:95-102 | File entries under other keys have no effect. |
| DockerFileProperties.DockerFilePropertyLoader.constructor | src/main/java/jsr223/docker/file/DockerFilePropertyLoader.java:76-78 | The singleton starts with the settings of one reload. |
| DockerFileProperties.DockerFilePropertyLoader.Reload | src/main/java/jsr223/docker/file/DockerFilePropertyLoader.java:83-103 | The properties become the loaded file, and all five settings become `Resolve` of the system properties and file. The ensures does not mention the old settings, so nothing of them, and no setter value, survives. |
| DockerFileProperties.DockerFilePropertyLoader.SetDockerHost | src/main/java/jsr223/docker/file/DockerFilePropertyLoader.java:54-56 | Only the docker host changes. |
| DockerFileProperties.DockerFilePropertyLoader.SetDockerFileCommand | src/main/java/jsr223/docker/file/DockerFilePropertyLoader.java:58-60 | Only the docker command changes. |
| DockerFileProperties.DockerFilePropertyLoader.SetSudoCommand | src/main/java/jsr223/docker/file/DockerFilePropertyLoader.java:62-64 | Only the sudo command changes. |
| DockerFileProperties.DockerFilePropertyLoader.SetUseSudo | src/main/java/jsr223/docker/file/DockerFilePropertyLoader.java:66-68 | Only the sudo flag changes. |
| DockerFileProperties.DockerFilePropertyLoader.SetKeepDockerFile | src/main/java/jsr223/docker/file/DockerFilePropertyLoader.java:70-72 | Only the keep flag changes. |
| DockerComposeProperties.CommandKeyFollowsPlatform | src/main/java/jsr223/docker/compose/utils/DockerComposePropertyLoader.java:96-103 | On Windows or macOS only `docker.compose.command.windows` is read; elsewhere only `docker.compose.command`. |
| DockerComposeProperties.UnconfiguredDefaults | src/main/java/jsr223/docker/compose/utils/DockerComposePropertyLoader.java:100-109 | The defaults are: "docker-compose" on Windows/macOS, "/usr/local/bin/docker-compose" elsewhere, sudo "/usr/bin/sudo", no sudo, host "", and keep *true*. |
| DockerComposeProperties.PlatformExamples | src/main/java/jsr223/docker/compose/utils/DockerComposePropertyLoader.java:96-97 | "Windows 10" and "Mac OS X" count as Windows or macOS; "Linux" does not. |
| DockerComposeProperties.FileValuesApply | src/test/java/jsr223/docker/compose/utils/DockerComposePropertyLoaderTest.java:37-51 | With no system properties, every setting comes from the test configuration file. |
| DockerComposeProperties.SystemPropertyOverridesOneKey | src/test/java/jsr223/docker/compose/utils/DockerComposePropertyLoaderTest.java:53-59 | A system sudo command wins, while the host still comes from the file. |
| DockerComposeProperties.DockerComposePropertyLoader.constructor | src/main/java/jsr223/docker/compose/utils/DockerComposePropertyLoader.java:77-79 | The singleton starts with the settings of one reload. |
| DockerComposeProperties.DockerComposePropertyLoader.Reload | src/main/java/jsr223/docker/compose/utils/DockerComposePropertyLoader.java:84-110 | The properties become the loaded file, and all five settings become `Resolve` with the OS branch. Nothing earlier survives. |
| DockerComposeProperties.DockerComposePropertyLoader.SetDockerHost | src/main/java/jsr223/docker/compose/utils/DockerComposePropertyLoader.java:55-57 | Only the docker host changes. |
| DockerComposeProperties.DockerComposePropertyLoader.SetDockerComposeCommand | src/main/java/jsr223/docker/compose/utils/DockerComposePropertyLoader.java:59-61 | Only the compose command changes. |
| DockerComposeProperties.DockerComposePropertyLoader.SetSudoCommand | src/main/java/jsr223/docker/compose/utils/DockerComposePropertyLoader.java:63-65 | Only the sudo command changes. |
| DockerComposeProperties.DockerComposePropertyLoader.SetUseSudo | src/main/java/jsr223/docker/compose/utils/DockerComposePropertyLoader.java:67-69 | Only the sudo flag changes. |
| DockerComposeProperties.DockerComposePropertyLoader.SetKeepDockerFile | src/main/java/jsr223/docker/compose/utils/DockerComposePropertyLoader.java:71-73 | Only the keep flag changes. |
| DockerComposeEngine.DockerComposeScriptEngine.constructor | src/main/java/jsr223/docker/compose/DockerComposeScriptEngine.java:86 | A new engine has no compose directory and an empty trace. |
| DockerComposeEngine.DockerComposeScriptEngine.StopAndRemoveContainers | src/main/java/jsr223/docker/compose/DockerComposeScriptEngine.java:222-234 | `down` is launched in the current compose directory. |
| DockerComposeEngine.DockerComposeScriptEngine.ResolveComposeDirectory | src/main/java/jsr223/docker/compose/DockerComposeScriptEngine.java:137-148 | The compose directory follows `ScratchDirectory`. It faults exactly when the scratch binding has the wrong type. |
| DockerComposeEngine.DockerComposeScriptEngine.TryBlockSteps | src/main/java/jsr223/docker/compose/DockerComposeScriptEngine.java:150-198 | Trace, file, hook and exit follow `ComposeTryBlock`: write, launch up, add the hook, and map the exit code. |
| DockerComposeEngine.DockerComposeScriptEngine.FinallyBlock | src/main/java/jsr223/docker/compose/DockerComposeScriptEngine.java:199-217 | The block clears the interrupt flag, launches down, deletes the file if it was written and is not kept, and removes the hook if it was added. |
| DockerComposeEngine.DockerComposeScriptEngine.Eval | src/main/java/jsr223/docker/compose/DockerComposeScriptEngine.java:108-220 | Directory, trace and result equal `ComposeEval`. The lemmas below state what it means. |
| DockerComposeEvalProperties.ComposeDirectory | src/main/java/jsr223/docker/compose/DockerComposeScriptEngine.java:137-148 | `eval` crashes iff the scratch binding has the wrong type; it then logs nothing and keeps the directory. Otherwise it runs in the scratch string or the temporary directory, and every launch, up and down, uses that directory. |
| DockerComposeEvalProperties.ComposeResult | src/main/java/jsr223/docker/compose/DockerComposeScriptEngine.java:189-219 | `eval` returns 0 iff the write succeeded and up exited 0. It throws `ComposeFailed(code)` iff up exited nonzero. It returns null iff the write failed, up failed to start, or up was interrupted. |
| DockerComposeEvalProperties.DownOutcomeIgnored | src/main/java/jsr223/docker/compose/DockerComposeScriptEngine.java:200-206 | Whatever down does, the `eval` is the same; its exceptions never propagate. |
| DockerComposeEvalProperties.DownAlwaysAttempted | src/main/java/jsr223/docker/compose/DockerComposeScriptEngine.java:199-203 | On every path, down is launched once, right after the interrupt flag is reset, in the working directory. |
| DockerComposeEvalProperties.UpFollowsWrite | src/main/java/jsr223/docker/compose/DockerComposeScriptEngine.java:150-158 | The compose file is written and up launched iff the write succeeds. Then the write is the first event and up the second. |
| DockerComposeEvalProperties.ComposeFileDeletion | src/main/java/jsr223/docker/compose/DockerComposeScriptEngine.java:208-213 | The compose file is deleted iff it was written and keep is false, and only that file is deleted. |
| DockerComposeEvalProperties.ComposeHookPairing | src/main/java/jsr223/docker/compose/DockerComposeScriptEngine.java:166-216 | The hook is added iff up started, and then right after up's launch. It is removed iff it was added, as the last event. |

## Left out

- **Process I/O.** Stream attachment, `waitFor` and `destroy` are not modelled as
  behaviour. A process is an oracle outcome, and `destroy` is a trace event.
- **The process handles.** A `Process` is represented by its command line. The
  command-array fields (`dockerFileCommand`, `dockerStopCommand`, ...) appear only as the
  argv of their launch events.
- **JVM shutdown hooks.** Hooks are modelled only as "added" and "removed" events. Their
  run at JVM exit is not modelled, and neither is the Windows limitation noted in
  `handleShutdown`.
- **Environment values.** Environment variables, `DOCKER_HOST` in the process environment,
  and the variable replacement in the script are not modelled; the script text never
  affects a decision.
- **Logging.** log4j setup and teardown (`initLogger`, `cleanLogger`, the log messages) are
  not modelled.
- **Files and the system.** Writing files is a success flag plus a trace event. A delete
  that fails is only logged, so it is a plain event. The temporary directory, the system
  properties and `os.name` are inputs. A null `os.name` is not modelled.
- **The exec step's inputs.** `createDockerExecExecutionCommand` and `EXEC_ARGUMENT` are
  not part of this model. The exec command line (`execArgv`) and the exec action name
  (`execAction`) are inputs of `DockerFileLifecycle.EvalRun`.
- **Compose commands.** `DockerComposeCommandCreator`, `CommandlineOptionsFromBindingsExtractor`
  and `ScriptContextBindingsExtractor` are not part of this model. The up and down command
  lines and the compose file name are inputs.
- **Other classes.** `StringBindingsAdder`, `VariablesReplacer`,
  `DockerComposeScriptEngineFactory`, `DockerComposeUtilities`, `eval(Reader)` and
  `ConfigurationFileWriter` are not part of this model.
- **Scheduler constants.** Binding names come from the scheduler's `SchedulerConstants`
  and `SchedulerVars`. Their values are stated as constants.
- **Property loaders.** The singleton holder is not modelled; the loader classes stand
  for their one instance. The configuration-file path is not modelled either, because the
  file's content is an input.
- **Option splitting.** User-supplied delimiters are read as literal strings, not as
  regular expressions. A delimiter holding regex metacharacters is not modelled.
- **Action splitting.** `split("\\s*,\\s*")` is modelled as splitting on commas, trimming
  the whitespace next to each comma and dropping the trailing empty strings.
- **Case folding.** `toLowerCase` and `equalsIgnoreCase` are modelled on ASCII letters
  only.
- **Task variables.** A variable's value is its string form.
- **Integers.** Exit codes are unbounded integers. Java's 32-bit `int` does not matter to
  any decision here, since only zero versus nonzero is tested.
- **Null map values.** Generic-information entries with a null value are not modelled.
  `DockerFileCommands.OptionsIn` therefore tests key membership where the code tests
  `get(key) != null`.
- DockerFileEngine.DockerFileScriptEngine.Eval: proved against `EvalRun`, which guards the
  hook removal at line 251; as written, an `eval` whose Dockerfile write fails (and whose
  cleanup throws nothing) ends in a NullPointerException instead of returning null. That
  behaviour is modelled by `DockerFileLifecycle.EvalRunAsWritten` rather than by the class.
- **Statement order.** `DockerFileEngine.DockerFileScriptEngine.Eval` resolves the working
  directory right after the bindings, but the code builds the command lines first. The
  commands do not read the directory, so the two orders have the same effect.
- **Test resources.** `DockerComposeProperties.FileValuesApply` uses a configuration file
  reconstructed from the test's assertions. The actual test resource is not part of this
  model.

## Findings

| source | as written | input that shows it | evidently intended | confidence | as-written member | corrected member |
|---|---|---|---|---|---|---|
| src/main/java/jsr223/docker/file/DockerFileScriptEngine.java:251 | `removeShutdownHook(shutdownHook)` runs in `finally` without a null check. When the Dockerfile write throws, no hook was created, and `Runtime.removeShutdownHook(null)` throws NullPointerException. | Any `eval` whose Dockerfile write fails (IOException caught), with a cleanup that throws nothing, e.g. a fresh engine with no bindings. | Return null after the caught IOException, as the compose engine does by guarding the removal (src/main/java/jsr223/docker/compose/DockerComposeScriptEngine.java:214). | not executed | DockerFileLifecycleProperties.NullHookCounterexample | DockerFileLifecycle.EvalRun |
