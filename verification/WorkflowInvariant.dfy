/** What holds of a WorkflowRun's status and children between any two steps, and why derivation keeps it. */
module WorkflowInvariant {
  import opened Common
  import opened WorkflowStatus
  import opened WorkflowDerive
  import opened WorkflowPlan

  /** What is taken for granted about the names in a WorkflowRun. */
  ghost predicate NamesDistinct(c: Config) {
    && (forall job, i, j :: job in c.jobs && 0 <= i < j < |c.jobs[job].steps| ==>
          c.jobs[job].steps[i].name != c.jobs[job].steps[j].name)
    && (forall key, a :: key in c.actions && 0 <= a < |c.actions[key].steps| ==> c.actions[key].steps[a] != "")
    && (forall key :: c.runName(key) != "")
    && (forall job :: c.callName(job) != "")
    && (forall job, other :: c.callName(job) == c.callName(other) ==> job == other)
  }

  // ---- one step -------------------------------------------------------------

  ghost predicate FreshAction(s: ActionStepStatus) {
    s.phase.StepPending? && s.runName == ""
  }

  ghost predicate Untouched(s: StepStatus) {
    s.phase.StepPending? && s.runName == "" && forall a :: 0 <= a < |s.actionSteps| ==> FreshAction(s.actionSteps[a])
  }

  /** How the recorded phase and Run name of one step relate to its child Run. */
  ghost predicate SlotOk(c: Config, runs: map<StepKey, Run>, key: StepKey, phase: StepPhase, runName: string) {
    if key in runs then
      && runs[key].name == c.runName(key) && runName == c.runName(key) && !phase.StepPending?
      && (phase.StepSucceeded? ==> Good(c, runs[key]))
      && (phase.StepFailed? ==> runs[key].phase.Terminal() && !Good(c, runs[key]))
    else
      runName == "" && (phase.StepPending? || phase.StepFailed?)
  }

  ghost predicate Good(c: Config, run: Run) {
    run.phase.RunSucceeded? && c.environmentOk(run.outputs)
  }

  ghost predicate ActionSlotsOk(
      c: Config, job: string, step: string, inner: seq<ActionStepStatus>, runs: map<StepKey, Run>) {
    forall a :: 0 <= a < |inner| ==>
        SlotOk(c, runs, StepKey(job, step, inner[a].name), inner[a].phase, inner[a].runName)
  }

  ghost predicate InnerSequential(inner: seq<ActionStepStatus>) {
    forall a, b :: 0 <= a < b < |inner| ==> FreshAction(inner[b]) || inner[a].phase.StepSucceeded?
  }

  ghost predicate InnerSucceeded(inner: seq<ActionStepStatus>) {
    forall a :: 0 <= a < |inner| ==> inner[a].phase.StepSucceeded?
  }

  ghost predicate InnerDone(job: string, step: string, inner: seq<ActionStepStatus>, runs: map<StepKey, Run>) {
    forall a :: 0 <= a < |inner| && StepKey(job, step, inner[a].name) in runs ==>
      runs[StepKey(job, step, inner[a].name)].phase.Terminal()
  }

  ghost predicate InnerNamed(inner: seq<ActionStepStatus>, names: seq<string>) {
    |inner| == |names| && forall a :: 0 <= a < |inner| ==> inner[a].name == names[a]
  }

  ghost predicate ActionOk(c: Config, job: string, spec: StepSpec, s: StepStatus, runs: map<StepKey, Run>) {
    var key := ActionKey(job, spec.name);
    && key in c.actions && InnerNamed(s.actionSteps, c.actions[key].steps)
    && ActionSlotsOk(c, job, s.name, s.actionSteps, runs)
    && InnerSequential(s.actionSteps)
    && s.runName == ""
    && (s.phase.StepPending? ==> Untouched(s))
    && (s.phase.StepSucceeded? ==> InnerSucceeded(s.actionSteps))
    && (s.phase.StepFailed? ==> InnerDone(job, s.name, s.actionSteps, runs))
  }

  ghost predicate StepOk(c: Config, job: string, spec: StepSpec, s: StepStatus, runs: map<StepKey, Run>) {
    && s.name == spec.name
    && if spec.uses == ""
       then s.actionSteps == [] && SlotOk(c, runs, StepKey(job, s.name, ""), s.phase, s.runName)
       else ActionOk(c, job, spec, s, runs)
  }

  /** Every child Run belongs to a step of the specification. */
  ghost predicate KeyKnown(c: Config, k: StepKey) {
    k.job in c.jobs && exists i :: 0 <= i < |c.jobs[k.job].steps| && KeyAt(c, k, c.jobs[k.job].steps[i])
  }

  ghost predicate KeyAt(c: Config, k: StepKey, spec: StepSpec) {
    && spec.name == k.step
    && if spec.uses == "" then k.action == ""
       else
         && k.action != "" && ActionKey(k.job, k.step) in c.actions
         && k.action in c.actions[ActionKey(k.job, k.step)].steps
  }

  ghost predicate RunsKnown(c: Config, runs: map<StepKey, Run>) {
    forall k :: k in runs ==> KeyKnown(c, k)
  }

  // ---- one job --------------------------------------------------------------

  ghost predicate Sequential(steps: seq<StepStatus>) {
    forall i, j :: 0 <= i < j < |steps| ==> Untouched(steps[j]) || steps[i].phase.StepSucceeded?
  }

  ghost predicate StepsOk(c: Config, job: string, steps: seq<StepStatus>, runs: map<StepKey, Run>)
    requires job in c.jobs
  {
    && |steps| == |c.jobs[job].steps|
    && (forall i :: 0 <= i < |steps| ==> StepOk(c, job, c.jobs[job].steps[i], steps[i], runs))
    && Sequential(steps)
  }

  ghost predicate AllSucceeded(steps: seq<StepStatus>) {
    forall i :: 0 <= i < |steps| ==> steps[i].phase.StepSucceeded?
  }

  ghost predicate SomeFailed(steps: seq<StepStatus>) {
    exists i :: 0 <= i < |steps| && steps[i].phase.StepFailed?
  }

  ghost predicate AllUntouched(steps: seq<StepStatus>) {
    forall i :: 0 <= i < |steps| ==> Untouched(steps[i])
  }

  /** How a job's phase relates to its steps. */
  ghost predicate PhaseMatchesSteps(phase: JobPhase, steps: seq<StepStatus>) {
    && (phase.Unstarted() || phase.JobSkipped? ==> AllUntouched(steps))
    && (phase.JobSucceeded? ==> AllSucceeded(steps))
    && (phase.JobFailed? ==> SomeFailed(steps) || AllSucceeded(steps))
  }

  /** How a reusable-workflow job relates to its child WorkflowRun. */
  ghost predicate CallOk(c: Config, job: string, status: JobStatus, calls: map<string, ChildWorkflow>)
    requires job in c.jobs
  {
    var name := c.callName(job);
    if name in calls then
      && c.jobs[job].uses != "" && status.workflowRunName == name
      && (status.phase.JobRunning?
          || ((status.phase.JobSucceeded? || status.phase.JobFailed?) && calls[name].phase.Terminal()))
    else
      && status.workflowRunName == ""
      && (c.jobs[job].uses != "" ==> !status.phase.JobRunning? && !status.phase.JobSucceeded?)
  }

  /** How a job's phase relates to the jobs it needs. */
  ghost predicate NeedsOk(c: Config, job: string, jobs: JobStatuses)
    requires job in c.jobs && job in jobs
  {
    && (forall d :: d in jobs[job].pre <==> d in c.jobs[job].needs)
    && (jobs[job].phase.JobRunning? || jobs[job].phase.JobSucceeded? || jobs[job].phase.JobFailed? ==>
          forall d :: d in c.jobs[job].needs ==> d in jobs && jobs[d].phase.JobSucceeded?)
    && (jobs[job].phase.JobSkipped? ==>
          exists d :: d in c.jobs[job].needs && d in jobs && jobs[d].phase.Blocking())
  }

  ghost predicate JobOk(
      c: Config, job: string, jobs: JobStatuses, runs: map<StepKey, Run>, calls: map<string, ChildWorkflow>)
    requires job in c.jobs && job in jobs
  {
    && StepsOk(c, job, jobs[job].steps, runs)
    && (c.jobs[job].uses == "" ==> PhaseMatchesSteps(jobs[job].phase, jobs[job].steps))
    && CallOk(c, job, jobs[job], calls)
    && NeedsOk(c, job, jobs)
  }

  ghost predicate CallsKnown(c: Config, calls: map<string, ChildWorkflow>) {
    forall n :: n in calls ==> exists job :: job in c.jobs && c.callName(job) == n
  }

  ghost predicate JobsOk(c: Config, jobs: JobStatuses, runs: map<StepKey, Run>, calls: map<string, ChildWorkflow>) {
    && jobs.Keys == c.jobs.Keys && RunsKnown(c, runs) && CallsKnown(c, calls)
    && forall job :: job in c.jobs ==> JobOk(c, job, jobs, runs, calls)
  }

  // ---- projection keeps the steps in order ----------------------------------

  lemma FindStepAt(steps: seq<StepStatus>, i: nat)
    requires i < |steps| && forall j :: 0 <= j < i ==> steps[j].name != steps[i].name
    ensures FindStep(steps, steps[i].name) == i
  {
  }

  lemma FindActionStepAt(inner: seq<ActionStepStatus>, a: nat)
    requires a < |inner| && forall j :: 0 <= j < a ==> inner[j].name != inner[a].name
    ensures FindActionStep(inner, inner[a].name) == a
  {
  }

  /** Recording a finished Run keeps its slot consistent, and changes nothing that was settled. */
  lemma ProjectedActionOk(
      c: Config, job: string, step: string, inner: seq<ActionStepStatus>, a: nat, runs: map<StepKey, Run>)
    requires a < |inner|
    requires ActionSlotsOk(c, job, step, inner, runs)
    ensures var r := ProjectedAction(c, job, step, inner, a, runs);
            && SlotOk(c, runs, StepKey(job, step, r.name), r.phase, r.runName)
            && r.name == inner[a].name
            && (FreshAction(inner[a]) ==> r == inner[a])
            && (inner[a].phase.StepSucceeded? ==> r.phase.StepSucceeded?)
  {
    assert SlotOk(c, runs, StepKey(job, step, inner[a].name), inner[a].phase, inner[a].runName);
  }

  /** The recorded phases have caught up with the child Runs: what is Running has an unfinished Run. */
  ghost predicate StepCurrent(job: string, spec: StepSpec, s: StepStatus, runs: map<StepKey, Run>) {
    if spec.uses == "" then s.phase.StepRunning? ==> !Finished(runs, StepKey(job, s.name, ""))
    else !s.phase.StepFailed? ==>
      forall a :: 0 <= a < |s.actionSteps| && s.actionSteps[a].phase.StepRunning? ==>
        !Finished(runs, StepKey(job, s.name, s.actionSteps[a].name))
  }

  lemma NoActionRuns(c: Config, job: string, i: nat, runs: map<StepKey, Run>)
    requires NamesDistinct(c) && RunsKnown(c, runs)
    requires job in c.jobs && i < |c.jobs[job].steps| && c.jobs[job].steps[i].uses == ""
    ensures !BadActionRun(c, job, c.jobs[job].steps[i].name, runs)
  {
    var name := c.jobs[job].steps[i].name;
    forall k | Finished(runs, k) && k.job == job && k.step == name ensures k.action == "" {
      assert KeyKnown(c, k);
      var j :| 0 <= j < |c.jobs[job].steps| && KeyAt(c, k, c.jobs[job].steps[j]);
      assert i == j;
    }
  }

  lemma ProjectedInlineOk(c: Config, job: string, i: nat, s: StepStatus, runs: map<StepKey, Run>)
    requires NamesDistinct(c) && RunsKnown(c, runs)
    requires job in c.jobs && i < |c.jobs[job].steps| && c.jobs[job].steps[i].uses == ""
    requires StepOk(c, job, c.jobs[job].steps[i], s, runs)
    ensures var r := ProjectedStep(c, job, s, runs);
            && StepOk(c, job, c.jobs[job].steps[i], r, runs)
            && StepCurrent(job, c.jobs[job].steps[i], r, runs)
            && (Untouched(s) ==> r == s)
            && (s.phase.Terminal() ==> r.phase == s.phase)
  {
    NoActionRuns(c, job, i, runs);
    var r := ProjectedStep(c, job, s, runs);
    assert r.actionSteps == [];
  }

  lemma NoInlineRun(c: Config, job: string, i: nat, runs: map<StepKey, Run>)
    requires NamesDistinct(c) && RunsKnown(c, runs)
    requires job in c.jobs && i < |c.jobs[job].steps| && c.jobs[job].steps[i].uses != ""
    ensures StepKey(job, c.jobs[job].steps[i].name, "") !in runs
  {
    KeyAtItsStep(c, job, i, runs, StepKey(job, c.jobs[job].steps[i].name, ""));
  }

  lemma KeyAtItsStep(c: Config, job: string, i: nat, runs: map<StepKey, Run>, k: StepKey)
    requires NamesDistinct(c) && RunsKnown(c, runs)
    requires job in c.jobs && i < |c.jobs[job].steps| && k.job == job && k.step == c.jobs[job].steps[i].name
    ensures k in runs ==> KeyAt(c, k, c.jobs[job].steps[i])
  {
    if k in runs {
      assert KeyKnown(c, k);
      var j :| 0 <= j < |c.jobs[job].steps| && KeyAt(c, k, c.jobs[job].steps[j]);
      assert i == j;
    }
  }

  ghost function ProjectedInner(
      c: Config, job: string, step: string, inner: seq<ActionStepStatus>, runs: map<StepKey, Run>)
      : seq<ActionStepStatus>
  {
    seq(|inner|, a requires 0 <= a < |inner| => ProjectedAction(c, job, step, inner, a, runs))
  }

  lemma ProjectedInnerOk(c: Config, job: string, step: string, inner: seq<ActionStepStatus>, runs: map<StepKey, Run>)
    requires ActionSlotsOk(c, job, step, inner, runs) && InnerSequential(inner)
    ensures var r := ProjectedInner(c, job, step, inner, runs);
            && ActionSlotsOk(c, job, step, r, runs) && InnerSequential(r)
            && (forall a :: 0 <= a < |inner| ==> r[a].name == inner[a].name)
            && (forall a :: 0 <= a < |inner| && FreshAction(inner[a]) ==> r[a] == inner[a])
            && (forall a :: 0 <= a < |inner| && inner[a].phase.StepSucceeded? ==> r[a].phase.StepSucceeded?)
  {
    forall a | 0 <= a < |inner|
      ensures var r := ProjectedAction(c, job, step, inner, a, runs);
              && SlotOk(c, runs, StepKey(job, step, r.name), r.phase, r.runName)
              && r.name == inner[a].name
              && (FreshAction(inner[a]) ==> r == inner[a])
              && (inner[a].phase.StepSucceeded? ==> r.phase.StepSucceeded?)
    {
      ProjectedActionOk(c, job, step, inner, a, runs);
    }
    var r := ProjectedInner(c, job, step, inner, runs);
    forall a, b | 0 <= a < b < |r| ensures FreshAction(r[b]) || r[a].phase.StepSucceeded? {
      assert FreshAction(inner[b]) || inner[a].phase.StepSucceeded?;
    }
  }

  /** A bad Action-local Run leaves every Run of the call finished. */
  lemma BadRunStops(c: Config, job: string, i: nat, s: StepStatus, runs: map<StepKey, Run>)
    requires NamesDistinct(c) && RunsKnown(c, runs)
    requires job in c.jobs && i < |c.jobs[job].steps| && c.jobs[job].steps[i].uses != ""
    requires StepOk(c, job, c.jobs[job].steps[i], s, runs)
    requires BadActionRun(c, job, s.name, runs)
    ensures InnerDone(job, s.name, s.actionSteps, runs) && !InnerSucceeded(s.actionSteps) && !Untouched(s)
  {
    var k :| Finished(runs, k) && k.job == job && k.step == s.name && k.action != ""
        && !c.environmentOk(runs[k].outputs);
    assert KeyKnown(c, k);
    var j :| 0 <= j < |c.jobs[job].steps| && KeyAt(c, k, c.jobs[job].steps[j]);
    assert i == j;
    var names := c.actions[ActionKey(job, s.name)].steps;
    var b :| 0 <= b < |names| && names[b] == k.action;
    assert s.actionSteps[b].name == k.action;
    assert SlotOk(c, runs, k, s.actionSteps[b].phase, s.actionSteps[b].runName);
    StoppedAt(c, job, s.name, s.actionSteps, b, runs);
  }

  /** Sequential inner steps: if step b has finished without succeeding, no Run of the call is active. */
  lemma StoppedAt(c: Config, job: string, step: string, inner: seq<ActionStepStatus>, b: nat, runs: map<StepKey, Run>)
    requires b < |inner| && ActionSlotsOk(c, job, step, inner, runs) && InnerSequential(inner)
    requires !inner[b].phase.StepSucceeded? && !FreshAction(inner[b])
    requires StepKey(job, step, inner[b].name) in runs ==> Finished(runs, StepKey(job, step, inner[b].name))
    ensures InnerDone(job, step, inner, runs)
  {
    forall a | 0 <= a < |inner| && StepKey(job, step, inner[a].name) in runs
      ensures runs[StepKey(job, step, inner[a].name)].phase.Terminal()
    {
      assert SlotOk(c, runs, StepKey(job, step, inner[a].name), inner[a].phase, inner[a].runName);
      assert a < b ==> inner[a].phase.StepSucceeded?;
    }
  }

  lemma ProjectedCallOk(c: Config, job: string, i: nat, s: StepStatus, runs: map<StepKey, Run>)
    requires NamesDistinct(c) && RunsKnown(c, runs)
    requires job in c.jobs && i < |c.jobs[job].steps| && c.jobs[job].steps[i].uses != "" && ActionsResolved(c, job)
    requires StepOk(c, job, c.jobs[job].steps[i], s, runs)
    ensures var r := ProjectedStep(c, job, s, runs);
            && StepOk(c, job, c.jobs[job].steps[i], r, runs)
            && StepCurrent(job, c.jobs[job].steps[i], r, runs)
            && (Untouched(s) ==> r == s)
            && (s.phase.Terminal() ==> r.phase == s.phase)
  {
    NoInlineRun(c, job, i, runs);
    ProjectedInnerOk(c, job, s.name, s.actionSteps, runs);
    var bad := BadActionRun(c, job, s.name, runs);
    if bad {
      BadRunStops(c, job, i, s, runs);
    }
    var r := ProjectedStep(c, job, s, runs);
    assert r.actionSteps == ProjectedInner(c, job, s.name, s.actionSteps, runs);
    if Untouched(s) {
      assert r.actionSteps == s.actionSteps;
    }
    if !bad {
      forall a | 0 <= a < |r.actionSteps| && r.actionSteps[a].phase.StepRunning?
        ensures !Finished(runs, StepKey(job, s.name, r.actionSteps[a].name))
      {
        FinishedIsRecorded(c, job, i, s, a, runs);
      }
    }
  }

  lemma FinishedIsRecorded(c: Config, job: string, i: nat, s: StepStatus, a: nat, runs: map<StepKey, Run>)
    requires NamesDistinct(c)
    requires job in c.jobs && i < |c.jobs[job].steps| && c.jobs[job].steps[i].uses != "" && ActionsResolved(c, job)
    requires StepOk(c, job, c.jobs[job].steps[i], s, runs) && a < |s.actionSteps|
    requires !BadActionRun(c, job, s.name, runs)
    ensures Finished(runs, StepKey(job, s.name, s.actionSteps[a].name)) ==>
              !ProjectedAction(c, job, s.name, s.actionSteps, a, runs).phase.StepRunning?
  {
    var key := StepKey(job, s.name, s.actionSteps[a].name);
    var names := c.actions[ActionKey(job, s.name)].steps;
    assert s.actionSteps[a].name == names[a] && names[a] != "";
    FindActionStepAt(s.actionSteps, a);
    assert SlotOk(c, runs, key, s.actionSteps[a].phase, s.actionSteps[a].runName);
  }

  lemma ProjectedStepOk(c: Config, job: string, i: nat, s: StepStatus, runs: map<StepKey, Run>)
    requires NamesDistinct(c) && RunsKnown(c, runs)
    requires job in c.jobs && i < |c.jobs[job].steps| && ActionsResolved(c, job)
    requires StepOk(c, job, c.jobs[job].steps[i], s, runs)
    ensures var r := ProjectedStep(c, job, s, runs);
            && StepOk(c, job, c.jobs[job].steps[i], r, runs)
            && StepCurrent(job, c.jobs[job].steps[i], r, runs)
            && (Untouched(s) ==> r == s)
            && (s.phase.Terminal() ==> r.phase == s.phase)
  {
    if c.jobs[job].steps[i].uses == "" {
      ProjectedInlineOk(c, job, i, s, runs);
    } else {
      ProjectedCallOk(c, job, i, s, runs);
    }
  }

  ghost predicate StepsCurrent(c: Config, job: string, steps: seq<StepStatus>, runs: map<StepKey, Run>)
    requires job in c.jobs && |steps| == |c.jobs[job].steps|
  {
    forall i :: 0 <= i < |steps| ==> StepCurrent(job, c.jobs[job].steps[i], steps[i], runs)
  }

  /** What a transformation of a job's steps must not disturb. */
  ghost predicate Settles(before: seq<StepStatus>, after: seq<StepStatus>) {
    && |before| == |after|
    && (forall i :: 0 <= i < |before| && Untouched(before[i]) ==> after[i] == before[i])
    && (forall i :: 0 <= i < |before| && before[i].phase.Terminal() ==> after[i].phase == before[i].phase)
  }

  lemma SettlesKeepsOrder(before: seq<StepStatus>, after: seq<StepStatus>)
    requires Settles(before, after) && Sequential(before)
    ensures Sequential(after)
  {
    forall i, j | 0 <= i < j < |after| ensures Untouched(after[j]) || after[i].phase.StepSucceeded? {
      assert Untouched(before[j]) || before[i].phase.StepSucceeded?;
    }
  }

  /** Projection of every finished child Run, one job. */
  lemma ProjectedStepsOk(c: Config, job: string, steps: seq<StepStatus>, runs: map<StepKey, Run>)
    requires NamesDistinct(c) && RunsKnown(c, runs) && job in c.jobs && ActionsResolved(c, job)
    requires StepsOk(c, job, steps, runs)
    ensures var r := ProjectedSteps(c, job, steps, runs);
            StepsOk(c, job, r, runs) && StepsCurrent(c, job, r, runs) && Settles(steps, r)
  {
    var r := ProjectedSteps(c, job, steps, runs);
    forall i | 0 <= i < |steps|
      ensures && StepOk(c, job, c.jobs[job].steps[i], r[i], runs)
              && StepCurrent(job, c.jobs[job].steps[i], r[i], runs)
              && (Untouched(steps[i]) ==> r[i] == steps[i])
              && (steps[i].phase.Terminal() ==> r[i].phase == steps[i].phase)
    {
      assert StepOk(c, job, c.jobs[job].steps[i], steps[i], runs);
      assert forall j :: 0 <= j < i ==> StepOk(c, job, c.jobs[job].steps[j], steps[j], runs);
      assert forall j :: 0 <= j < i ==> steps[j].name != steps[i].name;
      FindStepAt(steps, i);
      ProjectedStepOk(c, job, i, steps[i], runs);
    }
    SettlesKeepsOrder(steps, r);
  }

  // ---- Action calls ---------------------------------------------------------

  /** An unfinished Action call still has an inner step that is neither failed nor succeeded. */
  ghost predicate CallOpen(s: StepStatus) {
    s.phase.Terminal() || ActionCallPhase(s.actionSteps).StepPending? || ActionCallPhase(s.actionSteps).StepRunning?
  }

  lemma DeriveActionCallOk(c: Config, job: string, i: nat, s: StepStatus, runs: map<StepKey, Run>, ctx: ResolveContext)
    requires job in c.jobs && i < |c.jobs[job].steps| && c.jobs[job].steps[i].uses != "" && ActionsResolved(c, job)
    requires StepOk(c, job, c.jobs[job].steps[i], s, runs) && StepCurrent(job, c.jobs[job].steps[i], s, runs)
    ensures var r := DeriveActionCall(c, job, c.jobs[job].steps[i], s, ctx);
            && StepOk(c, job, c.jobs[job].steps[i], r, runs)
            && StepCurrent(job, c.jobs[job].steps[i], r, runs)
            && CallOpen(r)
            && (Untouched(s) ==> r == s)
            && (s.phase.Terminal() ==> r.phase == s.phase)
  {
    var inner := s.actionSteps;
    assert ActionOk(c, job, c.jobs[job].steps[i], s, runs);
    assert |inner| > 0;
    if Untouched(s) {
      assert FreshAction(inner[0]);
      assert ActionCallPhase(inner).StepPending?;
    }
    if b :| 0 <= b < |inner| && inner[b].phase.StepFailed? {
      assert SlotOk(c, runs, StepKey(job, s.name, inner[b].name), inner[b].phase, inner[b].runName);
      StoppedAt(c, job, s.name, inner, b, runs);
    } else if InnerSucceeded(inner) {
      SucceededIsDone(c, job, s.name, inner, runs);
    }
  }

  lemma SucceededIsDone(c: Config, job: string, step: string, inner: seq<ActionStepStatus>, runs: map<StepKey, Run>)
    requires ActionSlotsOk(c, job, step, inner, runs) && InnerSucceeded(inner)
    ensures InnerDone(job, step, inner, runs)
  {
    forall a | 0 <= a < |inner| && StepKey(job, step, inner[a].name) in runs
      ensures runs[StepKey(job, step, inner[a].name)].phase.Terminal()
    {
      assert SlotOk(c, runs, StepKey(job, step, inner[a].name), inner[a].phase, inner[a].runName);
    }
  }

  ghost predicate CallsOpen(c: Config, job: string, steps: seq<StepStatus>, n: nat)
    requires job in c.jobs && n <= |steps| == |c.jobs[job].steps|
  {
    forall i :: 0 <= i < n && c.jobs[job].steps[i].uses != "" ==> CallOpen(steps[i])
  }

  lemma {:induction false} ActionsDoneOk(
      c: Config, job: string, steps: seq<StepStatus>, runs: map<StepKey, Run>, ctx: map<string, Outputs>, n: nat)
    requires job in c.jobs && ActionsResolved(c, job) && n <= |c.jobs[job].steps|
    requires StepsOk(c, job, steps, runs) && StepsCurrent(c, job, steps, runs)
    ensures var r := ActionsDone(c, job, c.jobs[job].steps, steps, ctx, n);
            && StepsOk(c, job, r, runs) && StepsCurrent(c, job, r, runs) && CallsOpen(c, job, r, n) && Settles(steps, r)
  {
    var specs := c.jobs[job].steps;
    assert |steps| == |specs|;
    hide *;
    if n > 0 {
      ActionsDoneOk(c, job, steps, runs, ctx, n - 1);
      var before := ActionsDone(c, job, specs, steps, ctx, n - 1);
      var context := ResolveContext(None, StepContext(before), ctx);
      OneMoreDone(c, job, steps, ctx, n);
      OneActionDone(c, job, steps, before, runs, context, n - 1);
    } else {
      NoActionDone(c, job, steps, ctx);
    }
  }

  lemma NoActionDone(c: Config, job: string, steps: seq<StepStatus>, ctx: map<string, Outputs>)
    requires job in c.jobs && |steps| == |c.jobs[job].steps|
    ensures ActionsDone(c, job, c.jobs[job].steps, steps, ctx, 0) == steps
    ensures CallsOpen(c, job, steps, 0) && Settles(steps, steps)
  {
  }

  lemma OneMoreDone(c: Config, job: string, steps: seq<StepStatus>, ctx: map<string, Outputs>, n: nat)
    requires job in c.jobs && 0 < n <= |steps| == |c.jobs[job].steps|
    ensures var specs := c.jobs[job].steps;
            var before := ActionsDone(c, job, specs, steps, ctx, n - 1);
            var context := ResolveContext(None, StepContext(before), ctx);
            ActionsDone(c, job, specs, steps, ctx, n)
            == if specs[n - 1].uses == "" then before
               else before[n - 1 := DeriveActionCall(c, job, specs[n - 1], before[n - 1], context)]
  {
    hide DeriveActionCall, StepContext;
  }

  lemma OneActionDone(
      c: Config, job: string, steps: seq<StepStatus>, before: seq<StepStatus>, runs: map<StepKey, Run>,
      context: ResolveContext, i: nat)
    requires job in c.jobs && ActionsResolved(c, job) && i < |before|
    requires StepsOk(c, job, before, runs) && StepsCurrent(c, job, before, runs)
    requires CallsOpen(c, job, before, i) && Settles(steps, before)
    ensures var spec := c.jobs[job].steps[i];
            var r := if spec.uses == "" then before
                     else before[i := DeriveActionCall(c, job, spec, before[i], context)];
            && StepsOk(c, job, r, runs) && StepsCurrent(c, job, r, runs)
            && CallsOpen(c, job, r, i + 1) && Settles(steps, r)
  {
    hide StepOk, StepCurrent, DeriveActionCall, ActionsResolved, Sequential, CallOpen, Settles;
    var spec := c.jobs[job].steps[i];
    if spec.uses != "" {
      var r := before[i := DeriveActionCall(c, job, spec, before[i], context)];
      DeriveActionCallOk(c, job, i, before[i], runs, context);
      SettleOne(c, job, steps, before, r, i, runs);
    }
  }

  /** Replacing one step by a consistent one that disturbs nothing settled. */
  lemma SettleOne(
      c: Config, job: string, steps: seq<StepStatus>, before: seq<StepStatus>, r: seq<StepStatus>, i: nat,
      runs: map<StepKey, Run>)
    requires job in c.jobs && StepsOk(c, job, before, runs) && StepsCurrent(c, job, before, runs)
    requires Settles(steps, before)
    requires i < |before| && |r| == |before| && r == before[i := r[i]]
    requires StepOk(c, job, c.jobs[job].steps[i], r[i], runs) && StepCurrent(job, c.jobs[job].steps[i], r[i], runs)
    requires Untouched(before[i]) ==> r[i] == before[i]
    requires before[i].phase.Terminal() ==> r[i].phase == before[i].phase
    ensures StepsOk(c, job, r, runs) && StepsCurrent(c, job, r, runs) && Settles(steps, r)
  {
    forall j | 0 <= j < |r|
      ensures StepOk(c, job, c.jobs[job].steps[j], r[j], runs) && StepCurrent(job, c.jobs[job].steps[j], r[j], runs)
    {
      if j != i {
        assert r[j] == before[j];
        assert StepOk(c, job, c.jobs[job].steps[j], before[j], runs);
      }
    }
    SettlesKeepsOrder(before, r);
  }

  // ---- jobs -----------------------------------------------------------------

  /** Phases only move forward: a job's outcome and a job's exclusion are final. */
  ghost predicate Advances(before: JobPhase, after: JobPhase) {
    || after == before
    || (before.JobRunning? && (after.JobSucceeded? || after.JobFailed?))
    || (before.Unstarted() && after.JobSkipped?)
  }

  lemma NeedsKept(c: Config, job: string, jobs: JobStatuses, after: JobStatuses)
    requires job in c.jobs && job in jobs && after.Keys == jobs.Keys && NeedsOk(c, job, jobs)
    requires forall d :: d in jobs ==> Advances(jobs[d].phase, after[d].phase)
    requires after[job].pre == jobs[job].pre
    requires after[job].phase.JobSkipped? && !jobs[job].phase.JobSkipped? ==>
               exists d :: d in c.jobs[job].needs && d in after && after[d].phase.Blocking()
    ensures NeedsOk(c, job, after)
  {
    if jobs[job].phase.JobSkipped? {
      var d :| d in c.jobs[job].needs && d in jobs && jobs[d].phase.Blocking();
      assert after[d].phase.Blocking();
    }
  }

  /** A job the derivation left Running has something left to do. */
  ghost predicate RunningIsOpen(c: Config, job: string, status: JobStatus, calls: map<string, ChildWorkflow>)
    requires job in c.jobs
  {
    status.phase.JobRunning? ==>
      if c.jobs[job].uses == "" then !SomeFailed(status.steps) && !AllSucceeded(status.steps)
      else c.callName(job) in calls && !calls[c.callName(job)].phase.Terminal()
  }

  lemma JobDerivedOk(
      c: Config, job: string, before: JobStatus, status: JobStatus, runs: map<StepKey, Run>,
      calls: map<string, ChildWorkflow>)
    requires job in c.jobs && JobWellFormed(c.jobs[job]) && NamesDistinct(c)
    requires StepsOk(c, job, status.steps, runs) && Settles(before.steps, status.steps)
    requires status == before.(steps := status.steps)
    requires c.jobs[job].uses == "" ==> PhaseMatchesSteps(before.phase, before.steps)
    requires CallOk(c, job, before, calls)
    ensures var r := JobClosed(c, job, CallDerived(status, calls));
            && r.steps == status.steps && r.pre == before.pre
            && Advances(before.phase, r.phase) && (r.phase.JobSkipped? ==> before.phase.JobSkipped?)
            && (c.jobs[job].uses == "" ==> PhaseMatchesSteps(r.phase, r.steps))
            && CallOk(c, job, r, calls) && RunningIsOpen(c, job, r, calls)
  {
    var called := CallDerived(status, calls);
    var r := JobClosed(c, job, called);
    if c.jobs[job].uses == "" {
      PhaseKept(before.phase, before.steps, status.steps);
      assert called == status;
    } else {
      assert status.steps == [];
    }
  }

  lemma PhaseKept(phase: JobPhase, before: seq<StepStatus>, after: seq<StepStatus>)
    requires Settles(before, after) && PhaseMatchesSteps(phase, before)
    ensures PhaseMatchesSteps(phase, after)
  {
    if SomeFailed(before) {
      var i :| 0 <= i < |before| && before[i].phase.StepFailed?;
      assert after[i].phase.StepFailed?;
    }
  }
}
