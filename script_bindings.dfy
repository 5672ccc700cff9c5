/**
 * The engine-scope bindings a script engine receives from the task runner, and the
 * working-directory choice both engines make from them.
 */
module ScriptBindings {
  import opened Wrappers
  import opened ProcessModel

  /**
   * One binding value. Java hands the engines `Object`s that they cast; the model keeps
   * the shapes that matter: null, a string, a string-keyed map of strings (generic
   * information, or task variables by their string form), and anything else.
   */
  datatype Binding = Null | Text(s: string) | Dict(entries: map<string, string>) | Other

  type Bindings = map<string, Binding>

  /** Binding names defined by the scheduler's `SchedulerConstants` (not part of this model). */
  const GENERIC_INFO_BINDING_NAME := "genericInformation"
  const VARIABLES_BINDING_NAME := "variables"
  const DS_SCRATCH_BINDING_NAME := "localspace"

  /** Task variables defined by the scheduler's `SchedulerVars`. */
  const PA_JOB_ID := "PA_JOB_ID"
  const PA_TASK_ID := "PA_TASK_ID"

  /**
   * The value a field holds once a resolution step ends, and whether the step ended by
   * throwing (the field keeps what was assigned before the throw).
   */
  datatype Resolution<T> = Resolved(value: T) | Faulted(value: T, fault: Fault)

  /**
   * The working directory: the scratch binding when it holds a non-null string, else a
   * fresh temporary directory (`tempDir`). A scratch binding of another type fails the
   * cast to String and the directory field keeps its previous value.
   */
  function ScratchDirectory(current: Option<string>, b: Bindings, tempDir: string): (r: Resolution<Option<string>>)
    ensures r.Resolved? ==> r.value.Some?
    ensures r.Resolved? <==> DS_SCRATCH_BINDING_NAME !in b || b[DS_SCRATCH_BINDING_NAME].Null? || b[DS_SCRATCH_BINDING_NAME].Text?
    ensures DS_SCRATCH_BINDING_NAME in b && b[DS_SCRATCH_BINDING_NAME].Text? ==> r == Resolved(Some(b[DS_SCRATCH_BINDING_NAME].s))
    ensures r.Faulted? ==> r.value == current && r.fault == BadBinding(DS_SCRATCH_BINDING_NAME)
    ensures r.Resolved? && r.value != Some(tempDir) ==> DS_SCRATCH_BINDING_NAME in b && b[DS_SCRATCH_BINDING_NAME] == Text(r.value.value)
  {
    if DS_SCRATCH_BINDING_NAME !in b then Resolved(Some(tempDir))
    else match b[DS_SCRATCH_BINDING_NAME]
      case Text(s) => Resolved(Some(s))
      case Null => Resolved(Some(tempDir))
      case _ => Faulted(current, BadBinding(DS_SCRATCH_BINDING_NAME))
  }
}
