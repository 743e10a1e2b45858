/** Status derivation: from child Run and child WorkflowRun results to steps, jobs and the WorkflowRun. */
module WorkflowDerive {
  import opened Common
  import opened WorkflowStatus
  import WorkflowEnvironment
  import SkipPropagation

  datatype ActionKey = ActionKey(job: string, step: string)

  /**
    * The accepted snapshot of one WorkflowRun with the functions it leaves abstract: expression
    * resolution, the test that a Run's environment outputs are well formed, and the names given
    * to children.
    */
  datatype Config = Config(
    jobs: map<string, JobSpec>,
    actions: map<ActionKey, ActionSpec>,
    resolve: Resolver,
    environmentOk: Outputs -> bool,
    runName: StepKey -> string,
    callName: string -> string)

  /** jobs is None until the WorkflowRun has been initialized. */
  datatype Status = Status(phase: WorkflowPhase, jobs: Option<JobStatuses>)

  datatype World = World(
    status: Status,
    cancelRequested: bool,
    runs: map<StepKey, Run>,
    calls: map<string, ChildWorkflow>)

  // ---- child Runs onto steps ------------------------------------------------

  function TerminalStepPhase(phase: RunPhase): StepPhase {
    if phase.RunSucceeded? then StepSucceeded else StepFailed
  }

  /** The first step with the name, or |steps|. */
  function FindStep(steps: seq<StepStatus>, name: string): (i: nat)
    ensures i <= |steps|
    ensures i < |steps| ==> steps[i].name == name
    ensures forall j :: 0 <= j < i ==> steps[j].name != name
  {
    if steps == [] then 0 else if steps[0].name == name then 0 else 1 + FindStep(steps[1..], name)
  }

  function FindActionStep(steps: seq<ActionStepStatus>, name: string): (i: nat)
    ensures i <= |steps|
    ensures i < |steps| ==> steps[i].name == name
    ensures forall j :: 0 <= j < i ==> steps[j].name != name
  {
    if steps == [] then 0 else if steps[0].name == name then 0 else 1 + FindActionStep(steps[1..], name)
  }

  function RecordTerminalRun(step: StepStatus, run: Run): StepStatus {
    if step.runName != "" && step.runName != run.name then step
    else step.(runName := run.name, phase := TerminalStepPhase(run.phase), outputs := run.outputs)
  }

  function RecordTerminalActionRun(step: ActionStepStatus, run: Run): ActionStepStatus {
    if step.runName != "" && step.runName != run.name then step
    else step.(runName := run.name, phase := TerminalStepPhase(run.phase), outputs := run.outputs)
  }

  function ProjectOntoStep(c: Config, step: StepStatus, action: string, run: Run): StepStatus {
    if !c.environmentOk(run.outputs) then step.(phase := StepFailed)
    else if action == "" then RecordTerminalRun(step, run)
    else
      var a := FindActionStep(step.actionSteps, action);
      if a == |step.actionSteps| then step
      else step.(actionSteps := step.actionSteps[a := RecordTerminalActionRun(step.actionSteps[a], run)])
  }

  /** Copies one terminal child Run into the step its labels name, if there is one. */
  function ProjectChildRun(c: Config, jobs: JobStatuses, key: StepKey, run: Run): JobStatuses {
    if !run.phase.Terminal() || key.job !in jobs then jobs
    else
      var status := jobs[key.job];
      var i := FindStep(status.steps, key.step);
      if i == |status.steps| then jobs
      else jobs[key.job := status.(steps := status.steps[i := ProjectOntoStep(c, status.steps[i], key.action, run)])]
  }

  ghost predicate Finished(runs: map<StepKey, Run>, key: StepKey) {
    key in runs && runs[key].phase.Terminal()
  }

  /** Some Action-local Run of the step finished with malformed environment outputs. */
  ghost predicate BadActionRun(c: Config, job: string, step: string, runs: map<StepKey, Run>) {
    exists k :: Finished(runs, k) && k.job == job && k.step == step && k.action != ""
        && !c.environmentOk(runs[k].outputs)
  }

  ghost function ProjectedAction(
      c: Config, job: string, step: string, inner: seq<ActionStepStatus>, a: nat, runs: map<StepKey, Run>)
      : ActionStepStatus
    requires a < |inner|
  {
    var key := StepKey(job, step, inner[a].name);
    if inner[a].name != "" && FindActionStep(inner, inner[a].name) == a && Finished(runs, key)
        && c.environmentOk(runs[key].outputs)
    then RecordTerminalActionRun(inner[a], runs[key])
    else inner[a]
  }

  ghost function ProjectedInline(c: Config, job: string, step: StepStatus, runs: map<StepKey, Run>): StepStatus {
    var key := StepKey(job, step.name, "");
    if Finished(runs, key) then ProjectOntoStep(c, step, "", runs[key]) else step
  }

  ghost function ProjectedStep(c: Config, job: string, step: StepStatus, runs: map<StepKey, Run>): StepStatus {
    var inline := ProjectedInline(c, job, step, runs);
    inline.(
      phase := if BadActionRun(c, job, step.name, runs) then StepFailed else inline.phase,
      actionSteps := seq(|step.actionSteps|, a requires 0 <= a < |step.actionSteps| =>
                           ProjectedAction(c, job, step.name, step.actionSteps, a, runs)))
  }

  /** Only the first step of a name receives results. */
  ghost function ProjectedSteps(
      c: Config, job: string, steps: seq<StepStatus>, runs: map<StepKey, Run>): (r: seq<StepStatus>)
    ensures |r| == |steps|
  {
    seq(|steps|, i requires 0 <= i < |steps| =>
          if FindStep(steps, steps[i].name) == i then ProjectedStep(c, job, steps[i], runs) else steps[i])
  }

  /** All terminal child Runs copied onto the steps. */
  ghost function Projected(c: Config, jobs: JobStatuses, runs: map<StepKey, Run>): JobStatuses {
    map job | job in jobs :: jobs[job].(steps := ProjectedSteps(c, job, jobs[job].steps, runs))
  }

  // ---- Action calls ---------------------------------------------------------

  function StepContext(steps: seq<StepStatus>): map<string, Outputs> {
    if steps == [] then map[]
    else
      var last := steps[|steps| - 1];
      StepContext(steps[..|steps| - 1]) +
      if last.phase.StepSucceeded? && last.outputs != map[]
      then map[last.name := WorkflowEnvironment.WORKFLOW_ENVIRONMENT.PublicOutputs(last.outputs)] else map[]
  }

  function ActionContext(steps: seq<ActionStepStatus>): map<string, Outputs> {
    if steps == [] then map[]
    else
      var last := steps[|steps| - 1];
      ActionContext(steps[..|steps| - 1]) +
      if last.phase.StepSucceeded? && last.outputs != map[]
      then map[last.name := WorkflowEnvironment.WORKFLOW_ENVIRONMENT.PublicOutputs(last.outputs)] else map[]
  }

  function JobContext(jobs: JobStatuses): map<string, Outputs> {
    map job | job in jobs && jobs[job].phase.JobSucceeded? && jobs[job].outputs != map[] ::
      WorkflowEnvironment.WORKFLOW_ENVIRONMENT.PublicOutputs(jobs[job].outputs)
  }

  function ResolveAll(c: Config, values: map<string, string>, ctx: ResolveContext): Option<Outputs> {
    if forall name | name in values :: c.resolve(values[name], ctx).Some?
    then Some(map name | name in values :: c.resolve(values[name], ctx).value)
    else None
  }

  function ResolveActionInputs(
      c: Config, values: map<string, string>, ctx: ResolveContext, inputs: map<string, ActionInput>): Option<Outputs> {
    if !(values.Keys <= inputs.Keys) then None
    else
      var given := ResolveAll(c, values, ctx);
      if given.None? || exists name | name in inputs ::
          name !in given.value && inputs[name].required && inputs[name].default == ""
      then None
      else Some(map name | name in inputs :: if name in given.value then given.value[name] else inputs[name].default)
  }

  function ResolveActionOutputs(
      c: Config, action: ActionSpec, inner: seq<ActionStepStatus>, values: map<string, string>, ctx: ResolveContext)
      : Option<Outputs>
  {
    var inputs := ResolveActionInputs(c, values, ctx, action.inputs);
    if inputs.None? then None
    else ResolveAll(c, action.outputs, ResolveContext(inputs, ActionContext(inner), ctx.jobs))
  }

  function ActionCallPhase(inner: seq<ActionStepStatus>): StepPhase {
    if exists i | 0 <= i < |inner| :: inner[i].phase.StepFailed? then StepFailed
    else if exists i | 0 <= i < |inner| :: inner[i].phase.StepRunning? then StepRunning
    else if exists i | 0 <= i < |inner| :: inner[i].phase.StepPending? then StepPending
    else StepSucceeded
  }

  function DeriveActionCall(
      c: Config, job: string, spec: StepSpec, status: StepStatus, ctx: ResolveContext): StepStatus {
    if status.phase.Terminal() then status
    else
      var key := ActionKey(job, spec.name);
      if key !in c.actions || |status.actionSteps| != |c.actions[key].steps| then status.(phase := StepFailed)
      else match ActionCallPhase(status.actionSteps)
        case StepFailed => status.(phase := StepFailed)
        case StepPending => status
        case StepRunning => status
        case StepSucceeded =>
          var declared := ResolveActionOutputs(c, c.actions[key], status.actionSteps, spec.inputs, ctx);
          if declared.None? then status.(phase := StepFailed)
          else status.(phase := StepSucceeded,
                       outputs := WorkflowEnvironment.WORKFLOW_ENVIRONMENT.CollectActionOutputs(
                                    declared.value, status.actionSteps))
  }

  /** The job's steps after its first n step specifications have been looked at. */
  function ActionsDone(
      c: Config, job: string, specs: seq<StepSpec>, steps: seq<StepStatus>, jobContext: map<string, Outputs>, n: nat)
      : (r: seq<StepStatus>)
    requires n <= |specs|
    ensures |r| == |steps|
  {
    if n == 0 then steps
    else
      var before := ActionsDone(c, job, specs, steps, jobContext, n - 1);
      if specs[n - 1].uses == "" || n - 1 >= |before| then before
      else before[n - 1 := DeriveActionCall(c, job, specs[n - 1], before[n - 1],
                                            ResolveContext(None, StepContext(before), jobContext))]
  }

  ghost function ActionsDerived(c: Config, jobs: JobStatuses): JobStatuses {
    map job | job in jobs ::
      if job in c.jobs
      then jobs[job].(steps :=
          ActionsDone(c, job, c.jobs[job].steps, jobs[job].steps, JobContext(jobs), |c.jobs[job].steps|))
      else jobs[job]
  }

  // ---- jobs -----------------------------------------------------------------

  function CallDerived(status: JobStatus, calls: map<string, ChildWorkflow>): JobStatus {
    if status.workflowRunName == "" || !status.phase.JobRunning? || status.workflowRunName !in calls then status
    else
      var child := calls[status.workflowRunName];
      match child.phase
      case WorkflowSucceeded =>
        if child.outputs.None? then status.(phase := JobFailed)
        else status.(phase := JobSucceeded, outputs := child.outputs.value)
      case WorkflowFailed => status.(phase := JobFailed)
      case WorkflowCancelled => status.(phase := JobFailed)
      case _ => status
  }

  function TerminalJobPhase(status: JobStatus): Option<JobPhase> {
    if status.steps == [] then None
    else if exists i | 0 <= i < |status.steps| :: status.steps[i].phase.StepFailed? then Some(JobFailed)
    else if forall i | 0 <= i < |status.steps| :: status.steps[i].phase.StepSucceeded? then Some(JobSucceeded)
    else None
  }

  function JobOutputsOf(c: Config, job: string): map<string, string> {
    if job in c.jobs then c.jobs[job].outputs else map[]
  }

  function JobClosed(c: Config, job: string, status: JobStatus): JobStatus {
    if !status.phase.JobRunning? then status
    else match TerminalJobPhase(status)
      case None => status
      case Some(phase) =>
        if !phase.JobSucceeded? then status.(phase := phase)
        else
          var outputs := ResolveAll(c, JobOutputsOf(c, job), ResolveContext(None, StepContext(status.steps), map[]));
          if outputs.None? then status.(phase := JobFailed)
          else status.(phase := JobSucceeded, outputs := outputs.value)
  }

  ghost function JobsDerived(
      c: Config, jobs: JobStatuses, runs: map<StepKey, Run>, calls: map<string, ChildWorkflow>): JobStatuses {
    var projected := ActionsDerived(c, Projected(c, jobs, runs));
    map job | job in projected :: JobClosed(c, job, CallDerived(projected[job], calls))
  }

  // ---- the WorkflowRun ------------------------------------------------------

  ghost predicate Quiet(runs: map<StepKey, Run>, calls: map<string, ChildWorkflow>) {
    && (forall k :: k in runs ==> runs[k].phase.Terminal())
    && (forall n :: n in calls ==> calls[n].phase.Terminal())
  }

  ghost function CancelledPhase(w: World): WorkflowPhase {
    if !w.status.phase.Terminal() && Quiet(w.runs, w.calls) then WorkflowCancelled else w.status.phase
  }

  function TerminalWorkflowPhase(phase: WorkflowPhase, jobs: JobStatuses): WorkflowPhase {
    if jobs == map[] || exists job | job in jobs :: !jobs[job].phase.Terminal() then phase
    else if exists job | job in jobs :: jobs[job].phase.JobFailed? then WorkflowFailed
    else WorkflowSucceeded
  }

  /** The status one reconcile derives from what it has loaded. */
  ghost function Derive(c: Config, w: World): Status {
    match w.status.jobs
    case None => if w.cancelRequested then w.status.(phase := CancelledPhase(w)) else w.status
    case Some(jobs) =>
      var derived := JobsDerived(c, jobs, w.runs, w.calls);
      if w.cancelRequested then Status(CancelledPhase(w), Some(derived))
      else
        var skipped := SkipPropagation.Skipped(derived);
        Status(TerminalWorkflowPhase(w.status.phase, skipped), Some(skipped))
  }
}
