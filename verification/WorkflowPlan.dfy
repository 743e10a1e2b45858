/** Planning the next children of a WorkflowRun and applying the plan: one reconcile as a function. */
module WorkflowPlan {
  import opened Common
  import opened WorkflowStatus
  import opened WorkflowDerive
  import JobGraph

  // ---- validation and initialization ----------------------------------------

  ghost function NeedsOf(c: Config): JobGraph.Needs {
    map job | job in c.jobs :: c.jobs[job].needs
  }

  ghost predicate JobWellFormed(spec: JobSpec) {
    if spec.uses != "" then spec.runsOn == "" && spec.steps == [] else spec.runsOn != "" && spec.steps != []
  }

  ghost predicate ActionWellFormed(action: ActionSpec) {
    action.steps != [] && Distinct(action.steps)
  }

  ghost predicate ActionsResolved(c: Config, job: string)
    requires job in c.jobs
  {
    forall i :: 0 <= i < |c.jobs[job].steps| && c.jobs[job].steps[i].uses != "" ==>
      var key := ActionKey(job, c.jobs[job].steps[i].name);
      key in c.actions && ActionWellFormed(c.actions[key])
  }

  /** What initialization checks before it accepts a WorkflowRun. */
  ghost predicate Acceptable(c: Config) {
    && (forall job :: job in c.jobs ==> JobWellFormed(c.jobs[job]) && ActionsResolved(c, job))
    && JobGraph.AllKnown(NeedsOf(c)) && JobGraph.Acyclic(NeedsOf(c))
  }

  function FreshStep(c: Config, job: string, spec: StepSpec): StepStatus {
    var key := ActionKey(job, spec.name);
    StepStatus(spec.name, StepPending, "", map[],
               if spec.uses == "" || key !in c.actions then []
               else seq(|c.actions[key].steps|, a requires 0 <= a < |c.actions[key].steps| =>
                          ActionStepStatus(c.actions[key].steps[a], StepPending, "", map[])))
  }

  function InitialJobStatuses(c: Config): JobStatuses {
    map job | job in c.jobs ::
      var spec := c.jobs[job];
      JobStatus(if spec.needs == [] then JobPending else JobWaiting, spec.needs, "", map[],
                seq(|spec.steps|, i requires 0 <= i < |spec.steps| => FreshStep(c, job, spec.steps[i])))
  }

  // ---- planning -------------------------------------------------------------

  datatype Target =
    | StepTarget(job: string, stepIndex: nat, actionStepIndex: nat) // 0 for an inline step, else one-based
    | CallTarget(job: string)

  datatype Plan = Nothing | Initialize | Start(targets: seq<Target>) | RequestChildCancellation

  predicate JobReadyToStart(status: JobStatus, jobs: JobStatuses) {
    status.phase.Unstarted() &&
    forall i | 0 <= i < |status.pre| :: status.pre[i] in jobs && jobs[status.pre[i]].phase.JobSucceeded?
  }

  /** The first step that has not succeeded, or |steps|. */
  function FirstUnsucceeded(steps: seq<StepStatus>): (i: nat)
    ensures i <= |steps|
    ensures i < |steps| ==> !steps[i].phase.StepSucceeded?
    ensures forall j :: 0 <= j < i ==> steps[j].phase.StepSucceeded?
  {
    if steps == [] || !steps[0].phase.StepSucceeded? then 0 else 1 + FirstUnsucceeded(steps[1..])
  }

  function FirstUnsucceededAction(steps: seq<ActionStepStatus>): (i: nat)
    ensures i <= |steps|
    ensures i < |steps| ==> !steps[i].phase.StepSucceeded?
    ensures forall j :: 0 <= j < i ==> steps[j].phase.StepSucceeded?
  {
    if steps == [] || !steps[0].phase.StepSucceeded? then 0 else 1 + FirstUnsucceededAction(steps[1..])
  }

  function NextStepTarget(job: string, spec: JobSpec, status: JobStatus): Option<Target>
    requires |status.steps| == |spec.steps|
  {
    var i := FirstUnsucceeded(status.steps);
    if i == |status.steps| || status.steps[i].phase.StepFailed? then None
    else if spec.steps[i].uses == "" then
      if status.steps[i].phase.StepPending? && status.steps[i].runName == "" then Some(StepTarget(job, i, 0)) else None
    else
      var inner := status.steps[i].actionSteps;
      var a := FirstUnsucceededAction(inner);
      if a < |inner| && inner[a].phase.StepPending? && inner[a].runName == ""
      then Some(StepTarget(job, i, a + 1)) else None
  }

  function StepTargetFor(c: Config, jobs: JobStatuses, job: string): Option<Target> {
    if job !in c.jobs || job !in jobs then None
    else
      var spec, status := c.jobs[job], jobs[job];
      if spec.uses != "" || |status.steps| != |spec.steps| || spec.steps == [] then None
      else if !status.phase.JobRunning? && !JobReadyToStart(status, jobs) then None
      else NextStepTarget(job, spec, status)
  }

  function CallTargetFor(c: Config, jobs: JobStatuses, job: string): Option<Target> {
    if job !in c.jobs || job !in jobs then None
    else if c.jobs[job].uses == "" || jobs[job].workflowRunName != "" || !JobReadyToStart(jobs[job], jobs) then None
    else Some(CallTarget(job))
  }

  function RunnableStepTargets(c: Config, jobs: JobStatuses, names: seq<string>): seq<Target> {
    if names == [] then []
    else
      var target := StepTargetFor(c, jobs, names[0]);
      (if target.Some? then [target.value] else []) + RunnableStepTargets(c, jobs, names[1..])
  }

  function RunnableCallTargets(c: Config, jobs: JobStatuses, names: seq<string>): seq<Target> {
    if names == [] then []
    else
      var target := CallTargetFor(c, jobs, names[0]);
      (if target.Some? then [target.value] else []) + RunnableCallTargets(c, jobs, names[1..])
  }

  function Targets(c: Config, jobs: JobStatuses, names: seq<string>): seq<Target> {
    RunnableStepTargets(c, jobs, names) + RunnableCallTargets(c, jobs, names)
  }

  ghost predicate HasActiveChildren(w: World) {
    || (exists k :: k in w.runs && !w.runs[k].phase.Terminal() && !w.runs[k].terminating)
    || (exists n :: n in w.calls && !w.calls[n].phase.Terminal() && !w.calls[n].cancelRequested)
  }

  /** The plan for a world whose status has been derived; names lists the jobs in visiting order. */
  ghost function PlanFor(c: Config, w: World, names: seq<string>): Plan {
    if !w.status.phase.Terminal() && !w.cancelRequested && w.status.jobs.None? then Initialize
    else if w.cancelRequested && HasActiveChildren(w) then RequestChildCancellation
    else if w.status.phase.Terminal() || w.cancelRequested || c.jobs == map[] then Nothing
    else
      var targets := Targets(c, w.status.jobs.value, names);
      if targets == [] then Nothing else Start(targets)
  }

  // ---- applying -------------------------------------------------------------

  ghost predicate TargetFits(c: Config, jobs: JobStatuses, t: Target) {
    t.StepTarget? ==>
      && t.job in c.jobs && t.job in jobs
      && t.stepIndex < |c.jobs[t.job].steps| && t.stepIndex < |jobs[t.job].steps|
      && t.actionStepIndex <= |jobs[t.job].steps[t.stepIndex].actionSteps|
  }

  ghost function TargetKey(jobs: JobStatuses, t: Target): StepKey
    requires t.StepTarget? && t.job in jobs && t.stepIndex < |jobs[t.job].steps|
    requires t.actionStepIndex <= |jobs[t.job].steps[t.stepIndex].actionSteps|
  {
    var step := jobs[t.job].steps[t.stepIndex];
    StepKey(t.job, step.name, if t.actionStepIndex == 0 then "" else step.actionSteps[t.actionStepIndex - 1].name)
  }

  ghost function RecordStepRun(status: JobStatus, stepIndex: nat, actionStepIndex: nat, runName: string): JobStatus
    requires stepIndex < |status.steps| && actionStepIndex <= |status.steps[stepIndex].actionSteps|
  {
    var step := status.steps[stepIndex];
    var started :=
      if actionStepIndex == 0 then step.(phase := StepRunning, runName := runName)
      else
        var a := actionStepIndex - 1;
        step.(phase := StepRunning,
              actionSteps := step.actionSteps[a := step.actionSteps[a].(phase := StepRunning, runName := runName)]);
    status.(phase := JobRunning, steps := status.steps[stepIndex := started])
  }

  ghost function RecordStepFailure(status: JobStatus, stepIndex: nat): JobStatus
    requires stepIndex < |status.steps|
  {
    status.(phase := JobRunning, steps := status.steps[stepIndex := status.steps[stepIndex].(phase := StepFailed)])
  }

  function NewRun(name: string): Run {
    Run(name, RunPending, map[], false)
  }

  function NewCall(): ChildWorkflow {
    ChildWorkflow(WorkflowUnset, None, false)
  }

  /** Starts one target; a rejected one fails validation and creates no child. */
  ghost function StartOne(c: Config, w: World, t: Target, rejected: set<string>): World
    requires w.status.jobs.Some? && t.job in w.status.jobs.value && TargetFits(c, w.status.jobs.value, t)
  {
    var jobs := w.status.jobs.value;
    match t
    case StepTarget(job, i, a) =>
      var key := TargetKey(jobs, t);
      if job in rejected && !(a == 0 && key in w.runs) then
        w.(status := Status(WorkflowRunning, Some(jobs[job := RecordStepFailure(jobs[job], i)])))
      else
        var run := if key in w.runs then w.runs[key] else NewRun(c.runName(key));
        w.(status := Status(WorkflowRunning, Some(jobs[job := RecordStepRun(jobs[job], i, a, run.name)])),
           runs := w.runs[key := run])
    case CallTarget(job) =>
      var name := c.callName(job);
      if job in rejected then
        w.(status := Status(WorkflowRunning, Some(jobs[job := jobs[job].(phase := JobFailed)])))
      else
        w.(status := Status(WorkflowRunning,
            Some(jobs[job := jobs[job].(phase := JobRunning, workflowRunName := name)])),
           calls := w.calls[name := if name in w.calls then w.calls[name] else NewCall()])
  }

  ghost predicate Startable(c: Config, w: World, t: Target) {
    w.status.jobs.Some? && t.job in w.status.jobs.value && TargetFits(c, w.status.jobs.value, t)
  }

  /** Starts the targets in order. */
  ghost function StartAll(c: Config, w: World, targets: seq<Target>, rejected: set<string>): World
    decreases |targets|
  {
    if targets == [] || !Startable(c, w, targets[0]) then w
    else StartAll(c, StartOne(c, w, targets[0], rejected), targets[1..], rejected)
  }

  ghost function CancelChildren(w: World): World {
    w.(runs := map k | k in w.runs :: if w.runs[k].phase.Terminal() then w.runs[k] else w.runs[k].(terminating := true),
       calls := map n | n in w.calls ::
                  if w.calls[n].phase.Terminal() then w.calls[n] else w.calls[n].(cancelRequested := true))
  }

  /** One reconcile: derive, plan, apply, persist. accept is whether referenced Actions could be read. */
  ghost function Reconcile(c: Config, w: World, names: seq<string>, rejected: set<string>, accept: bool): World {
    var derived := w.(status := Derive(c, w));
    match PlanFor(c, derived, names)
    case Nothing => derived
    case Initialize =>
      if accept && Acceptable(c) then derived.(status := Status(WorkflowPending, Some(InitialJobStatuses(c))))
      else derived.(status := derived.status.(phase := WorkflowFailed))
    case Start(targets) => StartAll(c, derived, targets, rejected)
    case RequestChildCancellation => CancelChildren(derived)
  }

  /** A reconcile that gets as far as its first k targets and then loses its status patch. */
  ghost function LostReconcile(c: Config, w: World, names: seq<string>, rejected: set<string>, k: nat): World {
    var derived := w.(status := Derive(c, w));
    match PlanFor(c, derived, names)
    case Start(targets) =>
      var started := StartAll(c, derived, if k < |targets| then targets[..k] else targets, rejected);
      w.(runs := started.runs, calls := started.calls)
    case RequestChildCancellation => w.(runs := CancelChildren(w).runs, calls := CancelChildren(w).calls)
    case _ => w
  }
}
