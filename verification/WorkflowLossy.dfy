/**
  * The WorkflowRun protocol when status patches may be lost after children were created: what then
  * still holds is a matter of the children, since the stored status may be behind them.
  */
module WorkflowLossy {
  import opened Common
  import opened WorkflowStatus
  import opened WorkflowDerive
  import opened WorkflowPlan
  import opened WorkflowInvariant
  import opened WorkflowStart
  import M = WorkflowMachine
  import SkipPropagation

  /** Lost(names, rejected, served): a reconcile that gets to its first targets and whose status patch is lost. */
  datatype Event = Landed(step: M.Event) | Lost(names: seq<string>, rejected: set<string>, served: nat)

  ghost predicate Enabled(c: Config, w: World, e: Event) {
    match e
    case Landed(step) => M.Enabled(c, w, step)
    case Lost(names, _, _) => Enumerates(names, c.jobs.Keys)
  }

  ghost function Step(c: Config, w: World, e: Event): World
    requires Enabled(c, w, e)
  {
    match e
    case Landed(step) => M.Step(c, w, step)
    case Lost(names, rejected, served) => LostReconcile(c, w, names, rejected, served)
  }

  ghost predicate Behaviour(c: Config, ws: seq<World>, es: seq<Event>) {
    && |ws| == |es| + 1 && M.Initial(ws[0])
    && forall i :: 0 <= i < |es| ==> Enabled(c, ws[i], es[i]) && ws[i + 1] == Step(c, ws[i], es[i])
  }

  // ---- order among the children ---------------------------------------------

  ghost predicate Done(c: Config, runs: map<StepKey, Run>, k: StepKey) {
    k in runs && Good(c, runs[k])
  }

  ghost predicate InnerBefore(names: seq<string>, first: string, second: string) {
    exists a, b :: 0 <= a < b < |names| && names[a] == first && names[b] == second
  }

  /** Both belong to one job, and the first comes before the second in its specification. */
  ghost predicate Before(c: Config, p: StepKey, k: StepKey) {
    && p.job == k.job && k.job in c.jobs
    && exists i, j :: 0 <= i <= j < |c.jobs[k.job].steps| && BeforeAt(c, p, k, i, j)
  }

  ghost predicate BeforeAt(c: Config, p: StepKey, k: StepKey, i: nat, j: nat)
    requires k.job in c.jobs && i <= j < |c.jobs[k.job].steps|
  {
    var specs := c.jobs[k.job].steps;
    && KeyAt(c, p, specs[i]) && KeyAt(c, k, specs[j])
    && (i == j ==> specs[j].uses != "" && InnerBefore(c.actions[ActionKey(k.job, k.step)].steps, p.action, k.action))
  }

  /** Every child the job can have has succeeded. */
  ghost predicate JobDone(c: Config, job: string, runs: map<StepKey, Run>, calls: map<string, ChildWorkflow>) {
    && job in c.jobs
    && if c.jobs[job].uses != "" then c.callName(job) in calls && calls[c.callName(job)].phase.WorkflowSucceeded?
       else forall k :: KeyKnown(c, k) && k.job == job ==> Done(c, runs, k)
  }

  ghost predicate NeedsDone(c: Config, job: string, runs: map<StepKey, Run>, calls: map<string, ChildWorkflow>) {
    job in c.jobs && forall d :: d in c.jobs[job].needs ==> JobDone(c, d, runs, calls)
  }

  /** The Runs before this one and all children of the needed jobs have succeeded. */
  ghost predicate InOrder(c: Config, runs: map<StepKey, Run>, calls: map<string, ChildWorkflow>, k: StepKey) {
    KeyKnown(c, k) && NeedsDone(c, k.job, runs, calls) && forall p :: Before(c, p, k) ==> Done(c, runs, p)
  }

  ghost predicate CallInOrder(c: Config, runs: map<StepKey, Run>, calls: map<string, ChildWorkflow>, n: string) {
    exists job :: job in c.jobs && c.jobs[job].uses != "" && c.callName(job) == n && NeedsDone(c, job, runs, calls)
  }

  ghost predicate AllInOrder(c: Config, runs: map<StepKey, Run>, calls: map<string, ChildWorkflow>) {
    && (forall k :: k in runs ==> InOrder(c, runs, calls, k))
    && (forall n :: n in calls ==> CallInOrder(c, runs, calls, n))
  }

  /** What has succeeded stays so. */
  ghost predicate Grows(
      c: Config, runs: map<StepKey, Run>, calls: map<string, ChildWorkflow>, runsAfter: map<StepKey, Run>,
      callsAfter: map<string, ChildWorkflow>) {
    && (forall k :: Done(c, runs, k) ==> Done(c, runsAfter, k))
    && (forall n :: n in calls && calls[n].phase.WorkflowSucceeded? ==>
          n in callsAfter && callsAfter[n].phase.WorkflowSucceeded?)
  }

  lemma NeedsDoneGrows(
      c: Config, job: string, runs: map<StepKey, Run>, calls: map<string, ChildWorkflow>,
      runsAfter: map<StepKey, Run>, callsAfter: map<string, ChildWorkflow>)
    requires Grows(c, runs, calls, runsAfter, callsAfter)
    ensures JobDone(c, job, runs, calls) ==> JobDone(c, job, runsAfter, callsAfter)
    ensures NeedsDone(c, job, runs, calls) ==> NeedsDone(c, job, runsAfter, callsAfter)
  {
    hide Done, KeyKnown;
  }

  lemma InOrderGrows(
      c: Config, runs: map<StepKey, Run>, calls: map<string, ChildWorkflow>, runsAfter: map<StepKey, Run>,
      callsAfter: map<string, ChildWorkflow>, k: StepKey)
    requires Grows(c, runs, calls, runsAfter, callsAfter) && InOrder(c, runs, calls, k)
    ensures InOrder(c, runsAfter, callsAfter, k)
  {
    NeedsDoneGrows(c, k.job, runs, calls, runsAfter, callsAfter);
    hide Done, KeyKnown, NeedsDone, Before;
  }

  lemma AllInOrderGrows(
      c: Config, runs: map<StepKey, Run>, calls: map<string, ChildWorkflow>, runsAfter: map<StepKey, Run>,
      callsAfter: map<string, ChildWorkflow>)
    requires Grows(c, runs, calls, runsAfter, callsAfter) && AllInOrder(c, runs, calls)
    requires forall k :: k in runsAfter && k !in runs ==> InOrder(c, runsAfter, callsAfter, k)
    requires forall n :: n in callsAfter && n !in calls ==> CallInOrder(c, runsAfter, callsAfter, n)
    ensures AllInOrder(c, runsAfter, callsAfter)
  {
    hide InOrder, NeedsDone, Grows;
    forall k | k in runsAfter ensures InOrder(c, runsAfter, callsAfter, k) {
      if k in runs {
        InOrderGrows(c, runs, calls, runsAfter, callsAfter, k);
      }
    }
    forall n | n in callsAfter ensures CallInOrder(c, runsAfter, callsAfter, n) {
      if n in calls {
        var job :| job in c.jobs && c.jobs[job].uses != "" && c.callName(job) == n && NeedsDone(c, job, runs, calls);
        NeedsDoneGrows(c, job, runs, calls, runsAfter, callsAfter);
      }
    }
  }

  // ---- what a stored status may claim ---------------------------------------

  /** A step recorded as succeeded has Runs that did. */
  ghost predicate StepSound(c: Config, job: string, spec: StepSpec, s: StepStatus, runs: map<StepKey, Run>) {
    && s.name == spec.name
    && if spec.uses == "" then s.phase.StepSucceeded? ==> Done(c, runs, StepKey(job, s.name, ""))
       else
         && ActionKey(job, spec.name) in c.actions
         && InnerNamed(s.actionSteps, c.actions[ActionKey(job, spec.name)].steps)
         && InnerSound(c, job, s.name, s.actionSteps, runs)
         && (s.phase.StepSucceeded? ==> InnerSucceeded(s.actionSteps))
  }

  ghost predicate InnerSound(
      c: Config, job: string, step: string, inner: seq<ActionStepStatus>, runs: map<StepKey, Run>) {
    forall a :: 0 <= a < |inner| && inner[a].phase.StepSucceeded? ==> Done(c, runs, StepKey(job, step, inner[a].name))
  }

  ghost predicate StepsSound(c: Config, job: string, steps: seq<StepStatus>, runs: map<StepKey, Run>)
    requires job in c.jobs
  {
    && |steps| == |c.jobs[job].steps|
    && forall i :: 0 <= i < |steps| ==> StepSound(c, job, c.jobs[job].steps[i], steps[i], runs)
  }

  ghost predicate JobSound(
      c: Config, job: string, status: JobStatus, runs: map<StepKey, Run>, calls: map<string, ChildWorkflow>)
    requires job in c.jobs
  {
    && StepsSound(c, job, status.steps, runs)
    && (forall d :: d in status.pre <==> d in c.jobs[job].needs)
    && (status.workflowRunName != "" ==> c.jobs[job].uses != "" && status.workflowRunName == c.callName(job))
    && (status.phase.JobRunning? ==> NeedsDone(c, job, runs, calls))
    && (status.phase.JobSucceeded? ==> JobDone(c, job, runs, calls))
  }

  ghost predicate JobsSound(c: Config, jobs: JobStatuses, runs: map<StepKey, Run>, calls: map<string, ChildWorkflow>) {
    jobs.Keys == c.jobs.Keys && forall job :: job in c.jobs ==> JobSound(c, job, jobs[job], runs, calls)
  }

  ghost predicate Inv(c: Config, w: World) {
    && AllInOrder(c, w.runs, w.calls)
    && (w.status.jobs.None? ==> w.runs == map[] && w.calls == map[])
    && (w.status.jobs.Some? ==> Acceptable(c) && JobsSound(c, w.status.jobs.value, w.runs, w.calls))
  }

  lemma StepSoundGrows(
      c: Config, job: string, spec: StepSpec, s: StepStatus, runs: map<StepKey, Run>, after: map<StepKey, Run>)
    requires StepSound(c, job, spec, s, runs) && forall k :: Done(c, runs, k) ==> Done(c, after, k)
    ensures StepSound(c, job, spec, s, after)
  {
    hide Done;
  }

  lemma JobsSoundGrows(
      c: Config, jobs: JobStatuses, runs: map<StepKey, Run>, calls: map<string, ChildWorkflow>,
      runsAfter: map<StepKey, Run>, callsAfter: map<string, ChildWorkflow>)
    requires Grows(c, runs, calls, runsAfter, callsAfter) && JobsSound(c, jobs, runs, calls)
    ensures JobsSound(c, jobs, runsAfter, callsAfter)
  {
    hide StepSound, NeedsDone, JobDone;
    forall job | job in c.jobs ensures JobSound(c, job, jobs[job], runsAfter, callsAfter) {
      assert JobSound(c, job, jobs[job], runs, calls);
      NeedsDoneGrows(c, job, runs, calls, runsAfter, callsAfter);
      forall i | 0 <= i < |jobs[job].steps|
        ensures StepSound(c, job, c.jobs[job].steps[i], jobs[job].steps[i], runsAfter)
      {
        StepSoundGrows(c, job, c.jobs[job].steps[i], jobs[job].steps[i], runs, runsAfter);
      }
    }
  }

  // ---- derivation claims nothing more ---------------------------------------

  lemma RunsInOrderKnown(c: Config, runs: map<StepKey, Run>, calls: map<string, ChildWorkflow>)
    requires AllInOrder(c, runs, calls)
    ensures RunsKnown(c, runs)
  {
    forall k | k in runs ensures KeyKnown(c, k) {
      assert InOrder(c, runs, calls, k);
    }
  }

  lemma ProjectedSound(c: Config, job: string, i: nat, s: StepStatus, runs: map<StepKey, Run>)
    requires NamesDistinct(c) && RunsKnown(c, runs) && job in c.jobs && i < |c.jobs[job].steps|
    requires StepSound(c, job, c.jobs[job].steps[i], s, runs)
    ensures StepSound(c, job, c.jobs[job].steps[i], ProjectedStep(c, job, s, runs), runs)
  {
    if c.jobs[job].steps[i].uses == "" {
      NoActionRuns(c, job, i, runs);
    } else {
      NoInlineRun(c, job, i, runs);
    }
    hide NamesDistinct, RunsKnown, BadActionRun;
  }

  lemma ProjectedStepsSound(c: Config, job: string, steps: seq<StepStatus>, runs: map<StepKey, Run>)
    requires NamesDistinct(c) && RunsKnown(c, runs) && job in c.jobs && StepsSound(c, job, steps, runs)
    ensures StepsSound(c, job, ProjectedSteps(c, job, steps, runs), runs)
  {
    hide RunsKnown, ProjectedStep, FindStep;
    var r := ProjectedSteps(c, job, steps, runs);
    forall i | 0 <= i < |r| ensures StepSound(c, job, c.jobs[job].steps[i], r[i], runs) {
      assert StepSound(c, job, c.jobs[job].steps[i], steps[i], runs);
      ProjectedSound(c, job, i, steps[i], runs);
    }
  }

  lemma CallSound(c: Config, job: string, spec: StepSpec, s: StepStatus, ctx: ResolveContext, runs: map<StepKey, Run>)
    requires spec.uses != "" && StepSound(c, job, spec, s, runs)
    ensures StepSound(c, job, spec, DeriveActionCall(c, job, spec, s, ctx), runs)
  {
    hide ResolveActionOutputs, Done;
  }

  lemma {:induction false} ActionsDoneSound(
      c: Config, job: string, steps: seq<StepStatus>, runs: map<StepKey, Run>, ctx: map<string, Outputs>, n: nat)
    requires job in c.jobs && n <= |c.jobs[job].steps| && StepsSound(c, job, steps, runs)
    ensures StepsSound(c, job, ActionsDone(c, job, c.jobs[job].steps, steps, ctx, n), runs)
  {
    hide StepSound, DeriveActionCall, StepContext;
    if n > 0 {
      ActionsDoneSound(c, job, steps, runs, ctx, n - 1);
      var specs := c.jobs[job].steps;
      var before := ActionsDone(c, job, specs, steps, ctx, n - 1);
      if specs[n - 1].uses != "" {
        CallSound(c, job, specs[n - 1], before[n - 1], ResolveContext(None, StepContext(before), ctx), runs);
      }
    }
  }

  /** A job all of whose steps are recorded as succeeded is done. */
  lemma SucceededIsDone(
      c: Config, job: string, steps: seq<StepStatus>, runs: map<StepKey, Run>, calls: map<string, ChildWorkflow>)
    requires job in c.jobs && c.jobs[job].uses == "" && StepsSound(c, job, steps, runs) && AllSucceeded(steps)
    ensures JobDone(c, job, runs, calls)
  {
    forall k | KeyKnown(c, k) && k.job == job ensures Done(c, runs, k) {
      var i :| 0 <= i < |c.jobs[job].steps| && KeyAt(c, k, c.jobs[job].steps[i]);
      assert StepSound(c, job, c.jobs[job].steps[i], steps[i], runs);
      SucceededStepIsDone(c, job, c.jobs[job].steps[i], steps[i], runs, k);
    }
  }

  lemma SucceededStepIsDone(
      c: Config, job: string, spec: StepSpec, s: StepStatus, runs: map<StepKey, Run>, k: StepKey)
    requires StepSound(c, job, spec, s, runs) && s.phase.StepSucceeded? && k.job == job && KeyAt(c, k, spec)
    ensures Done(c, runs, k)
  {
    if spec.uses != "" {
      var names := c.actions[ActionKey(job, s.name)].steps;
      var a :| 0 <= a < |names| && names[a] == k.action;
      assert s.actionSteps[a].phase.StepSucceeded?;
      assert StepKey(job, s.name, s.actionSteps[a].name) == k;
    }
  }

  lemma ClosedSound(
      c: Config, job: string, status: JobStatus, runs: map<StepKey, Run>, calls: map<string, ChildWorkflow>)
    requires job in c.jobs && JobWellFormed(c.jobs[job]) && JobSound(c, job, status, runs, calls)
    ensures JobSound(c, job, JobClosed(c, job, CallDerived(status, calls)), runs, calls)
  {
    hide StepsSound, NeedsDone, ResolveAll, StepContext;
    var called := CallDerived(status, calls);
    assert JobSound(c, job, called, runs, calls);
    if called.phase.JobRunning? && TerminalJobPhase(called) == Some(JobSucceeded) {
      StepsMatch(c, job, called.steps, runs);
      SucceededIsDone(c, job, called.steps, runs, calls);
    }
  }

  lemma StepsMatch(c: Config, job: string, steps: seq<StepStatus>, runs: map<StepKey, Run>)
    requires job in c.jobs && StepsSound(c, job, steps, runs)
    ensures |steps| == |c.jobs[job].steps|
  {
  }

  lemma ActedSound(
      c: Config, jobs: JobStatuses, runs: map<StepKey, Run>, calls: map<string, ChildWorkflow>, job: string)
    requires NamesDistinct(c) && RunsKnown(c, runs) && JobsSound(c, jobs, runs, calls) && job in c.jobs
    ensures var acted := ActionsDerived(c, Projected(c, jobs, runs));
            job in acted && JobSound(c, job, acted[job], runs, calls)
  {
    hide StepsSound, NeedsDone, JobDone, NamesDistinct, RunsKnown, ProjectedSteps, ActionsDone;
    assert JobSound(c, job, jobs[job], runs, calls);
    var projected := Projected(c, jobs, runs);
    ProjectedStepsSound(c, job, jobs[job].steps, runs);
    ActionsDoneSound(c, job, projected[job].steps, runs, JobContext(projected), |c.jobs[job].steps|);
  }

  lemma JobsDerivedSound(c: Config, jobs: JobStatuses, runs: map<StepKey, Run>, calls: map<string, ChildWorkflow>)
    requires NamesDistinct(c) && RunsKnown(c, runs) && JobsSound(c, jobs, runs, calls) && Acceptable(c)
    ensures JobsSound(c, JobsDerived(c, jobs, runs, calls), runs, calls)
  {
    hide JobSound, NamesDistinct, RunsKnown, JobClosed, CallDerived, Acceptable, JobsSound, ActionsDone, ProjectedSteps;
    JobsMatch(c, jobs, runs, calls);
    var acted := ActionsDerived(c, Projected(c, jobs, runs));
    assert acted.Keys == jobs.Keys;
    forall job | job in c.jobs
      ensures JobSound(c, job, JobClosed(c, job, CallDerived(acted[job], calls)), runs, calls)
    {
      ActedSound(c, jobs, runs, calls, job);
      AcceptedJob(c, job);
      ClosedSound(c, job, acted[job], runs, calls);
    }
    AllJobsSound(c, JobsDerived(c, jobs, runs, calls), runs, calls);
  }

  lemma JobsMatch(c: Config, jobs: JobStatuses, runs: map<StepKey, Run>, calls: map<string, ChildWorkflow>)
    requires JobsSound(c, jobs, runs, calls)
    ensures jobs.Keys == c.jobs.Keys
  {
  }

  lemma AllJobsSound(c: Config, jobs: JobStatuses, runs: map<StepKey, Run>, calls: map<string, ChildWorkflow>)
    requires jobs.Keys == c.jobs.Keys && forall job :: job in c.jobs ==> JobSound(c, job, jobs[job], runs, calls)
    ensures JobsSound(c, jobs, runs, calls)
  {
  }

  lemma AcceptedJob(c: Config, job: string)
    requires Acceptable(c) && job in c.jobs
    ensures JobWellFormed(c.jobs[job])
  {
  }

  lemma SkippedSound(c: Config, jobs: JobStatuses, runs: map<StepKey, Run>, calls: map<string, ChildWorkflow>)
    requires JobsSound(c, jobs, runs, calls)
    ensures JobsSound(c, SkipPropagation.Skipped(jobs), runs, calls)
  {
    hide StepsSound, NeedsDone, JobDone, SkipPropagation.Blocked;
    var r := SkipPropagation.Skipped(jobs);
    forall job | job in c.jobs ensures JobSound(c, job, r[job], runs, calls) {
      assert JobSound(c, job, jobs[job], runs, calls);
    }
  }

  lemma DeriveSound(c: Config, w: World)
    requires NamesDistinct(c) && Inv(c, w)
    ensures Inv(c, w.(status := Derive(c, w)))
  {
    hide AllInOrder, JobsSound, Acceptable, NamesDistinct, JobsDerived, SkipPropagation.Skipped;
    if w.status.jobs.Some? {
      RunsInOrderKnown(c, w.runs, w.calls);
      JobsDerivedSound(c, w.status.jobs.value, w.runs, w.calls);
      SkippedSound(c, JobsDerived(c, w.status.jobs.value, w.runs, w.calls), w.runs, w.calls);
    }
  }

  // ---- targets are started in order -----------------------------------------

  ghost predicate TargetFitsSpec(c: Config, t: Target) {
    && t.job in c.jobs
    && match t
       case StepTarget(job, i, a) =>
         && i < |c.jobs[job].steps|
         && if c.jobs[job].steps[i].uses == "" then a == 0
            else
              var key := ActionKey(job, c.jobs[job].steps[i].name);
              key in c.actions && 0 < a <= |c.actions[key].steps|
       case CallTarget(job) => c.jobs[job].uses != ""
  }

  ghost function SpecKey(c: Config, t: Target): StepKey
    requires t.StepTarget? && TargetFitsSpec(c, t)
  {
    var spec := c.jobs[t.job].steps[t.stepIndex];
    StepKey(t.job, spec.name,
            if t.actionStepIndex == 0 then ""
            else c.actions[ActionKey(t.job, spec.name)].steps[t.actionStepIndex - 1])
  }

  /** Whatever the target waits for has happened to the children. */
  ghost predicate TargetSound(c: Config, runs: map<StepKey, Run>, calls: map<string, ChildWorkflow>, t: Target) {
    && TargetFitsSpec(c, t) && NeedsDone(c, t.job, runs, calls)
    && (t.StepTarget? ==> InOrder(c, runs, calls, SpecKey(c, t)))
  }

  lemma ReadyNeedsDone(c: Config, w: World, job: string)
    requires Inv(c, w) && w.status.jobs.Some? && job in c.jobs
    requires var jobs := w.status.jobs.value;
             job in jobs && (jobs[job].phase.JobRunning? || JobReadyToStart(jobs[job], jobs))
    ensures NeedsDone(c, job, w.runs, w.calls)
  {
    var jobs := w.status.jobs.value;
    hide JobDone, StepsSound, AllInOrder, Acceptable;
    assert JobSound(c, job, jobs[job], w.runs, w.calls);
    if !jobs[job].phase.JobRunning? {
      forall d | d in c.jobs[job].needs ensures JobDone(c, d, w.runs, w.calls) {
        assert d in jobs[job].pre;
        var i :| 0 <= i < |jobs[job].pre| && jobs[job].pre[i] == d;
        assert JobSound(c, d, jobs[d], w.runs, w.calls);
      }
    }
  }

  lemma SameStep(c: Config, k: StepKey, i: nat, j: nat)
    requires NamesDistinct(c) && k.job in c.jobs && i < |c.jobs[k.job].steps| && j < |c.jobs[k.job].steps|
    requires c.jobs[k.job].steps[i].name == k.step && KeyAt(c, k, c.jobs[k.job].steps[j])
    ensures i == j
  {
  }

  lemma EarlierDone(c: Config, steps: seq<StepStatus>, runs: map<StepKey, Run>, t: Target, p: StepKey)
    requires NamesDistinct(c) && t.StepTarget? && TargetFitsSpec(c, t) && StepsSound(c, t.job, steps, runs)
    requires ActionsResolved(c, t.job) && Before(c, p, SpecKey(c, t))
    requires forall j :: 0 <= j < t.stepIndex ==> steps[j].phase.StepSucceeded?
    requires forall b :: 0 <= b < t.actionStepIndex - 1 && b < |steps[t.stepIndex].actionSteps| ==>
               steps[t.stepIndex].actionSteps[b].phase.StepSucceeded?
    ensures Done(c, runs, p)
  {
    var k, specs := SpecKey(c, t), c.jobs[t.job].steps;
    var i, j :| 0 <= i <= j < |specs| && BeforeAt(c, p, k, i, j);
    SameStep(c, k, t.stepIndex, j);
    assert StepSound(c, t.job, specs[i], steps[i], runs);
    if i < j {
      SucceededStepIsDone(c, t.job, specs[i], steps[i], runs, p);
    } else {
      InnerEarlierDone(c, specs[j], steps[j], runs, p, k, t.actionStepIndex - 1);
    }
  }

  lemma InnerEarlierDone(
      c: Config, spec: StepSpec, s: StepStatus, runs: map<StepKey, Run>, p: StepKey, k: StepKey, a: nat)
    requires spec.uses != "" && StepSound(c, k.job, spec, s, runs) && p.job == k.job && p.step == k.step == spec.name
    requires var names := c.actions[ActionKey(k.job, spec.name)].steps;
             Distinct(names) && a < |names| && names[a] == k.action && InnerBefore(names, p.action, k.action)
    requires forall b :: 0 <= b < a && b < |s.actionSteps| ==> s.actionSteps[b].phase.StepSucceeded?
    ensures Done(c, runs, p)
  {
    var names := c.actions[ActionKey(k.job, spec.name)].steps;
    var x, y :| 0 <= x < y < |names| && names[x] == p.action && names[y] == k.action;
    assert y == a;
    assert s.actionSteps[x].phase.StepSucceeded?;
    assert StepKey(k.job, s.name, s.actionSteps[x].name) == p;
  }

  lemma SpecKeyKnown(c: Config, t: Target)
    requires NamesDistinct(c) && t.StepTarget? && TargetFitsSpec(c, t)
    ensures KeyKnown(c, SpecKey(c, t))
  {
    assert KeyAt(c, SpecKey(c, t), c.jobs[t.job].steps[t.stepIndex]);
  }

  lemma ReadyIsSound(c: Config, w: World, t: Target)
    requires NamesDistinct(c) && Inv(c, w) && w.status.jobs.Some? && Ready(c, w.status.jobs.value, t)
    ensures TargetSound(c, w.runs, w.calls, t)
  {
    var jobs := w.status.jobs.value;
    assert JobSound(c, t.job, jobs[t.job], w.runs, w.calls) && ActionsResolved(c, t.job);
    ReadyNeedsDone(c, w, t.job);
    if t.StepTarget? {
      var steps := jobs[t.job].steps;
      hide Inv, NeedsDone, JobDone, NamesDistinct, Before, Done;
      TargetStands(c, jobs, t, w.runs);
      SpecKeyKnown(c, t);
      forall p | Before(c, p, SpecKey(c, t)) ensures Done(c, w.runs, p) {
        EarlierDone(c, steps, w.runs, t, p);
      }
    }
  }

  /** Where the planner finds its next step. */
  lemma TargetStands(c: Config, jobs: JobStatuses, t: Target, runs: map<StepKey, Run>)
    requires t.StepTarget? && t.job in c.jobs && t.job in jobs && Ready(c, jobs, t)
    requires StepsSound(c, t.job, jobs[t.job].steps, runs) && ActionsResolved(c, t.job)
    ensures TargetFitsSpec(c, t)
    ensures var steps := jobs[t.job].steps;
            && (forall j :: 0 <= j < t.stepIndex ==> steps[j].phase.StepSucceeded?)
            && (forall b :: 0 <= b < t.actionStepIndex - 1 && b < |steps[t.stepIndex].actionSteps| ==>
                  steps[t.stepIndex].actionSteps[b].phase.StepSucceeded?)
  {
    assert StepSound(c, t.job, c.jobs[t.job].steps[t.stepIndex], jobs[t.job].steps[t.stepIndex], runs);
  }

  lemma TargetSoundGrows(
      c: Config, runs: map<StepKey, Run>, calls: map<string, ChildWorkflow>, runsAfter: map<StepKey, Run>,
      callsAfter: map<string, ChildWorkflow>, t: Target)
    requires Grows(c, runs, calls, runsAfter, callsAfter) && TargetSound(c, runs, calls, t)
    ensures TargetSound(c, runsAfter, callsAfter, t)
  {
    hide InOrder, Grows;
    NeedsDoneGrows(c, t.job, runs, calls, runsAfter, callsAfter);
    if t.StepTarget? {
      InOrderGrows(c, runs, calls, runsAfter, callsAfter, SpecKey(c, t));
    }
  }

  /** The job of a target with its step recorded as started or failed. */
  lemma RecordedStepsSound(
      c: Config, t: Target, status: JobStatus, runs: map<StepKey, Run>, runName: string)
    requires t.StepTarget? && TargetFitsSpec(c, t) && StepsSound(c, t.job, status.steps, runs)
    ensures t.stepIndex < |status.steps| && t.actionStepIndex <= |status.steps[t.stepIndex].actionSteps|
    ensures StepsSound(c, t.job, RecordStepRun(status, t.stepIndex, t.actionStepIndex, runName).steps, runs)
    ensures StepsSound(c, t.job, RecordStepFailure(status, t.stepIndex).steps, runs)
    ensures forall jobs :: t.job in jobs && jobs[t.job] == status ==> TargetKey(jobs, t) == SpecKey(c, t)
  {
    hide Done;
    var spec, s := c.jobs[t.job].steps[t.stepIndex], status.steps[t.stepIndex];
    assert StepSound(c, t.job, spec, s, runs);
  }

  /** Starting a target touches its own job and adds at most its own child. */
  ghost predicate OnlyStarts(c: Config, w: World, t: Target, after: World)
    requires t.StepTarget? ==> TargetFitsSpec(c, t)
  {
    && (forall k :: k in w.runs ==> k in after.runs && after.runs[k] == w.runs[k])
    && (forall n :: n in w.calls ==> n in after.calls && after.calls[n] == w.calls[n])
    && (forall k :: k in after.runs && k !in w.runs ==> t.StepTarget? && k == SpecKey(c, t))
    && (forall n :: n in after.calls && n !in w.calls ==> t.CallTarget? && n == c.callName(t.job))
    && w.status.jobs.Some? && after.status.jobs.Some? && t.job in after.status.jobs.value
    && after.status.jobs.value == w.status.jobs.value[t.job := after.status.jobs.value[t.job]]
  }

  lemma StepTargetStarted(c: Config, w: World, t: Target, rejected: set<string>)
    requires Startable(c, w, t) && t.StepTarget? && TargetSound(c, w.runs, w.calls, t)
    requires JobSound(c, t.job, w.status.jobs.value[t.job], w.runs, w.calls)
    ensures var after := StartOne(c, w, t, rejected);
            OnlyStarts(c, w, t, after) && JobSound(c, t.job, after.status.jobs.value[t.job], w.runs, w.calls)
  {
    var status := w.status.jobs.value[t.job];
    StepsOfJob(c, t.job, status, w.runs, w.calls);
    var key := TargetKey(w.status.jobs.value, t);
    var name := if key in w.runs then w.runs[key].name else c.runName(key);
    RecordedStepsSound(c, t, status, w.runs, name);
    RunningSound(c, t.job, status, RecordStepFailure(status, t.stepIndex).steps, w.runs, w.calls);
    RunningSound(c, t.job, status, RecordStepRun(status, t.stepIndex, t.actionStepIndex, name).steps, w.runs, w.calls);
    RecordedPhase(status, t.stepIndex, t.actionStepIndex, name);
    hide *;
    StepStartShape(c, w, t, rejected, name);
  }

  lemma StepStartShape(c: Config, w: World, t: Target, rejected: set<string>, name: string)
    requires Startable(c, w, t) && t.StepTarget? && TargetFitsSpec(c, t)
    requires var key := TargetKey(w.status.jobs.value, t);
             key == SpecKey(c, t) && name == if key in w.runs then w.runs[key].name else c.runName(key)
    ensures var after := StartOne(c, w, t, rejected);
            var status := w.status.jobs.value[t.job];
            && OnlyStarts(c, w, t, after)
            && (after.status.jobs.value[t.job] == RecordStepFailure(status, t.stepIndex)
                || after.status.jobs.value[t.job] == RecordStepRun(status, t.stepIndex, t.actionStepIndex, name))
  {
    hide RecordStepFailure, RecordStepRun;
  }

  lemma StepsOfJob(
      c: Config, job: string, status: JobStatus, runs: map<StepKey, Run>, calls: map<string, ChildWorkflow>)
    requires job in c.jobs && JobSound(c, job, status, runs, calls)
    ensures StepsSound(c, job, status.steps, runs)
  {
  }

  lemma RunningSound(
      c: Config, job: string, status: JobStatus, steps: seq<StepStatus>, runs: map<StepKey, Run>,
      calls: map<string, ChildWorkflow>)
    requires job in c.jobs && JobSound(c, job, status, runs, calls) && NeedsDone(c, job, runs, calls)
    requires StepsSound(c, job, steps, runs)
    ensures JobSound(c, job, status.(phase := JobRunning, steps := steps), runs, calls)
  {
    hide StepsSound, NeedsDone, JobDone;
  }

  lemma RecordedPhase(status: JobStatus, i: nat, a: nat, name: string)
    requires i < |status.steps| && a <= |status.steps[i].actionSteps|
    ensures var r := RecordStepFailure(status, i); r == status.(phase := JobRunning, steps := r.steps)
    ensures var r := RecordStepRun(status, i, a, name); r == status.(phase := JobRunning, steps := r.steps)
  {
  }

  lemma CallTargetStarted(c: Config, w: World, t: Target, rejected: set<string>)
    requires Startable(c, w, t) && t.CallTarget? && TargetSound(c, w.runs, w.calls, t)
    requires JobSound(c, t.job, w.status.jobs.value[t.job], w.runs, w.calls)
    ensures var after := StartOne(c, w, t, rejected);
            OnlyStarts(c, w, t, after) && JobSound(c, t.job, after.status.jobs.value[t.job], w.runs, w.calls)
  {
    hide StepsSound, JobDone, NeedsDone, InOrder;
  }

  lemma StartOneSound(c: Config, w: World, t: Target, rejected: set<string>)
    requires Inv(c, w) && Startable(c, w, t) && TargetSound(c, w.runs, w.calls, t)
    ensures var after := StartOne(c, w, t, rejected);
            Inv(c, after) && Grows(c, w.runs, w.calls, after.runs, after.calls)
  {
    assert JobSound(c, t.job, w.status.jobs.value[t.job], w.runs, w.calls);
    if t.StepTarget? {
      StepTargetStarted(c, w, t, rejected);
    } else {
      CallTargetStarted(c, w, t, rejected);
    }
    OnlyStartsSound(c, w, t, StartOne(c, w, t, rejected));
  }

  lemma OnlyStartsSound(c: Config, w: World, t: Target, after: World)
    requires Inv(c, w) && TargetSound(c, w.runs, w.calls, t) && OnlyStarts(c, w, t, after)
    requires TargetFitsSpec(c, t) && w.status.jobs.Some? && after.status.jobs.Some? && t.job in after.status.jobs.value
    requires JobSound(c, t.job, after.status.jobs.value[t.job], w.runs, w.calls)
    ensures Inv(c, after) && Grows(c, w.runs, w.calls, after.runs, after.calls)
  {
    assert t.job in c.jobs;
    hide *;
    StartGrows(c, w, t, after);
    StartKeepsJobs(c, w, t, after);
    StartKeepsOrder(c, w, t, after);
    InvOf(c, w, after);
  }

  lemma StartGrows(c: Config, w: World, t: Target, after: World)
    requires (t.StepTarget? ==> TargetFitsSpec(c, t)) && OnlyStarts(c, w, t, after)
    ensures Grows(c, w.runs, w.calls, after.runs, after.calls)
  {
  }

  lemma StartKeepsJobs(c: Config, w: World, t: Target, after: World)
    requires Inv(c, w) && (t.StepTarget? ==> TargetFitsSpec(c, t)) && OnlyStarts(c, w, t, after) && t.job in c.jobs
    requires JobSound(c, t.job, after.status.jobs.value[t.job], w.runs, w.calls)
    requires Grows(c, w.runs, w.calls, after.runs, after.calls)
    ensures JobsSound(c, after.status.jobs.value, after.runs, after.calls)
  {
    hide JobSound, AllInOrder, Grows, Acceptable, TargetFitsSpec;
    forall job | job in c.jobs ensures JobSound(c, job, after.status.jobs.value[job], w.runs, w.calls) {
      assert JobSound(c, job, w.status.jobs.value[job], w.runs, w.calls);
    }
    JobsSoundGrows(c, after.status.jobs.value, w.runs, w.calls, after.runs, after.calls);
  }

  lemma StartKeepsOrder(c: Config, w: World, t: Target, after: World)
    requires Inv(c, w) && TargetSound(c, w.runs, w.calls, t) && OnlyStarts(c, w, t, after)
    requires Grows(c, w.runs, w.calls, after.runs, after.calls)
    ensures AllInOrder(c, after.runs, after.calls)
  {
    hide JobsSound, AllInOrder, InOrder, NeedsDone, Grows, Acceptable;
    TargetSoundGrows(c, w.runs, w.calls, after.runs, after.calls, t);
    AllInOrderGrows(c, w.runs, w.calls, after.runs, after.calls);
  }

  lemma InvOf(c: Config, w: World, after: World)
    requires Inv(c, w) && w.status.jobs.Some? && after.status.jobs.Some?
    requires JobsSound(c, after.status.jobs.value, after.runs, after.calls) && AllInOrder(c, after.runs, after.calls)
    ensures Inv(c, after)
  {
  }

  lemma GrowsTwice(c: Config, a: World, b: World, d: World)
    ensures Grows(c, a.runs, a.calls, a.runs, a.calls)
    ensures Grows(c, a.runs, a.calls, b.runs, b.calls) && Grows(c, b.runs, b.calls, d.runs, d.calls) ==>
              Grows(c, a.runs, a.calls, d.runs, d.calls)
  {
    hide Done;
  }

  lemma {:induction false} StartAllSound(c: Config, w: World, targets: seq<Target>, rejected: set<string>)
    requires NamesDistinct(c) && Inv(c, w)
    requires forall i :: 0 <= i < |targets| ==> TargetSound(c, w.runs, w.calls, targets[i])
    ensures var after := StartAll(c, w, targets, rejected);
            Inv(c, after) && Grows(c, w.runs, w.calls, after.runs, after.calls)
    decreases |targets|
  {
    hide Inv, NamesDistinct, TargetSound, StartOne, Grows;
    GrowsTwice(c, w, w, w);
    if targets != [] && Startable(c, w, targets[0]) {
      var next := StartOne(c, w, targets[0], rejected);
      StartOneSound(c, w, targets[0], rejected);
      forall i | 0 <= i < |targets[1..]| ensures TargetSound(c, next.runs, next.calls, targets[1..][i]) {
        TargetSoundGrows(c, w.runs, w.calls, next.runs, next.calls, targets[i + 1]);
      }
      StartAllSound(c, next, targets[1..], rejected);
      GrowsTwice(c, w, next, StartAll(c, next, targets[1..], rejected));
    }
  }

  // ---- every step keeps it --------------------------------------------------

  /** The children go on: none disappears or is added, and what is finished stays as it is. */
  ghost predicate Progress(w: World, after: World) {
    && after.runs.Keys == w.runs.Keys && after.calls.Keys == w.calls.Keys
    && (forall k :: Finished(w.runs, k) ==> after.runs[k] == w.runs[k])
    && (forall n :: n in w.calls && w.calls[n].phase.Terminal() ==> after.calls[n] == w.calls[n])
  }

  lemma ProgressSound(c: Config, w: World, after: World)
    requires Inv(c, w) && Progress(w, after) && after.status.jobs == w.status.jobs
    ensures Inv(c, after)
  {
    assert Grows(c, w.runs, w.calls, after.runs, after.calls) by {
      forall k | Done(c, w.runs, k) ensures Done(c, after.runs, k) {
        assert Finished(w.runs, k);
      }
    }
    hide AllInOrder, JobsSound, Grows, Acceptable;
    AllInOrderGrows(c, w.runs, w.calls, after.runs, after.calls);
    if w.status.jobs.Some? {
      JobsSoundGrows(c, w.status.jobs.value, w.runs, w.calls, after.runs, after.calls);
    }
  }

  lemma InitialSound(c: Config)
    requires Acceptable(c)
    ensures JobsSound(c, InitialJobStatuses(c), map[], map[])
  {
    var jobs := InitialJobStatuses(c);
    forall job | job in c.jobs ensures JobSound(c, job, jobs[job], map[], map[]) {
      assert ActionsResolved(c, job);
      forall i | 0 <= i < |jobs[job].steps|
        ensures StepSound(c, job, c.jobs[job].steps[i], jobs[job].steps[i], map[])
      {
      }
    }
  }

  lemma PlannedSound(c: Config, w: World, names: seq<string>, targets: seq<Target>)
    requires NamesDistinct(c) && Inv(c, w) && Enumerates(names, c.jobs.Keys) && w.status.jobs.Some?
    requires targets <= Targets(c, w.status.jobs.value, names)
    ensures forall i :: 0 <= i < |targets| ==> TargetSound(c, w.runs, w.calls, targets[i])
  {
    hide Inv, NamesDistinct, TargetSound, Targets, Ready;
    TargetsReady(c, w.status.jobs.value, names);
    forall i | 0 <= i < |targets| ensures TargetSound(c, w.runs, w.calls, targets[i]) {
      assert Ready(c, w.status.jobs.value, Targets(c, w.status.jobs.value, names)[i]);
      ReadyIsSound(c, w, targets[i]);
    }
  }

  /** What the plan is made of. */
  lemma PlanMeans(c: Config, w: World, names: seq<string>)
    ensures PlanFor(c, w, names).Initialize? ==> w.status.jobs.None?
    ensures PlanFor(c, w, names).Start? ==>
              w.status.jobs.Some? && PlanFor(c, w, names).targets == Targets(c, w.status.jobs.value, names)
  {
    hide Targets;
  }

  lemma InitializeSound(c: Config, w: World, phase: WorkflowPhase)
    requires Inv(c, w) && w.status.jobs.None? && Acceptable(c)
    ensures Inv(c, w.(status := Status(phase, Some(InitialJobStatuses(c)))))
  {
    hide JobsSound, Acceptable, InitialJobStatuses;
    InitialSound(c);
  }

  lemma PlannedStartSound(
      c: Config, d: World, names: seq<string>, targets: seq<Target>, rejected: set<string>)
    requires NamesDistinct(c) && Inv(c, d) && Enumerates(names, c.jobs.Keys) && d.status.jobs.Some?
    requires targets <= Targets(c, d.status.jobs.value, names)
    ensures var after := StartAll(c, d, targets, rejected);
            Inv(c, after) && Grows(c, d.runs, d.calls, after.runs, after.calls)
  {
    hide *;
    PlannedSound(c, d, names, targets);
    StartAllSound(c, d, targets, rejected);
  }

  lemma CancelSound(c: Config, w: World)
    requires Inv(c, w)
    ensures Inv(c, CancelChildren(w))
    ensures Inv(c, w.(runs := CancelChildren(w).runs, calls := CancelChildren(w).calls))
  {
    hide Inv;
    ProgressSound(c, w, CancelChildren(w));
    ProgressSound(c, w, w.(runs := CancelChildren(w).runs, calls := CancelChildren(w).calls));
  }

  lemma ReconcileSound(c: Config, w: World, names: seq<string>, rejected: set<string>, accept: bool)
    requires NamesDistinct(c) && Inv(c, w) && Enumerates(names, c.jobs.Keys)
    ensures Inv(c, Reconcile(c, w, names, rejected, accept))
  {
    hide Derive, Inv, StartAll, CancelChildren, PlanFor, Targets, NamesDistinct, Acceptable, InitialJobStatuses,
         Enumerates;
    DeriveSound(c, w);
    var d := w.(status := Derive(c, w));
    PlanMeans(c, d, names);
    match PlanFor(c, d, names)
    case Nothing =>
    case Initialize =>
      ProgressSound(c, d, d.(status := d.status.(phase := WorkflowFailed)));
      if Acceptable(c) {
        InitializeSound(c, d, WorkflowPending);
      }
    case Start(targets) => PlannedStartSound(c, d, names, targets, rejected);
    case RequestChildCancellation => CancelSound(c, d);
  }

  lemma LostSound(c: Config, w: World, names: seq<string>, rejected: set<string>, served: nat)
    requires NamesDistinct(c) && Inv(c, w) && Enumerates(names, c.jobs.Keys)
    ensures Inv(c, LostReconcile(c, w, names, rejected, served))
  {
    hide Derive, Inv, StartAll, CancelChildren, PlanFor, Targets, NamesDistinct, Grows, Enumerates;
    DeriveSound(c, w);
    var d := w.(status := Derive(c, w));
    PlanMeans(c, d, names);
    DerivedJobs(c, w);
    match PlanFor(c, d, names)
    case Start(targets) =>
      LostStartSound(c, w, d, names, if served < |targets| then targets[..served] else targets, rejected);
    case RequestChildCancellation => CancelSound(c, w);
    case _ =>
  }

  lemma LostStartSound(
      c: Config, w: World, d: World, names: seq<string>, targets: seq<Target>, rejected: set<string>)
    requires NamesDistinct(c) && Inv(c, w) && Inv(c, d) && d.runs == w.runs && d.calls == w.calls
    requires Enumerates(names, c.jobs.Keys) && w.status.jobs.Some? && d.status.jobs.Some?
    requires targets <= Targets(c, d.status.jobs.value, names)
    ensures var after := StartAll(c, d, targets, rejected); Inv(c, w.(runs := after.runs, calls := after.calls))
  {
    hide *;
    PlannedStartSound(c, d, names, targets, rejected);
    StatusBehind(c, w, StartAll(c, d, targets, rejected));
  }

  lemma DerivedJobs(c: Config, w: World)
    ensures Derive(c, w).jobs.Some? <==> w.status.jobs.Some?
  {
    hide JobsDerived;
  }

  /** A status that has fallen behind its children claims nothing wrong. */
  lemma StatusBehind(c: Config, w: World, after: World)
    requires Inv(c, w) && Inv(c, after) && Grows(c, w.runs, w.calls, after.runs, after.calls) && w.status.jobs.Some?
    ensures Inv(c, w.(runs := after.runs, calls := after.calls))
  {
    hide AllInOrder, JobsSound, Grows, Acceptable;
    JobsSoundGrows(c, w.status.jobs.value, w.runs, w.calls, after.runs, after.calls);
  }

  lemma StepKeepsInv(c: Config, w: World, e: Event)
    requires NamesDistinct(c) && Inv(c, w) && Enabled(c, w, e)
    ensures Inv(c, Step(c, w, e))
  {
    hide Reconcile, LostReconcile, Inv, NamesDistinct;
    match e
    case Lost(names, rejected, served) => LostSound(c, w, names, rejected, served);
    case Landed(step) =>
      if step.Reconciled? {
        ReconcileSound(c, w, step.names, step.rejected, step.accept);
      } else {
        ProgressSound(c, w, Step(c, w, e));
      }
  }

  lemma {:induction false} BehaviourKeepsInv(c: Config, ws: seq<World>, es: seq<Event>, n: nat)
    requires NamesDistinct(c) && Behaviour(c, ws, es) && n < |ws|
    ensures Inv(c, ws[n])
  {
    hide Enabled, Step, NamesDistinct;
    if n > 0 {
      BehaviourKeepsInv(c, ws, es, n - 1);
      assert Enabled(c, ws[n - 1], es[n - 1]) && ws[n - 1 + 1] == Step(c, ws[n - 1], es[n - 1]);
      StepKeepsInv(c, ws[n - 1], es[n - 1]);
    }
  }

  // ---- what no lost patch can break -----------------------------------------

  /**
    * Whatever patches are lost: a child Run exists only when every Run before it in its job and every
    * child of the jobs it needs has succeeded.
    */
  lemma LossyStartsInOrder(c: Config, ws: seq<World>, es: seq<Event>, n: nat, k: StepKey)
    requires NamesDistinct(c) && Behaviour(c, ws, es) && n < |ws| && k in ws[n].runs
    ensures InOrder(c, ws[n].runs, ws[n].calls, k)
  {
    BehaviourKeepsInv(c, ws, es, n);
  }

  /** A child WorkflowRun too exists only when every child of the jobs it needs has succeeded. */
  lemma LossyCallsInOrder(c: Config, ws: seq<World>, es: seq<Event>, n: nat, job: string)
    requires NamesDistinct(c) && Behaviour(c, ws, es) && n < |ws| && c.callName(job) in ws[n].calls
    ensures NeedsDone(c, job, ws[n].runs, ws[n].calls)
  {
    BehaviourKeepsInv(c, ws, es, n);
    assert CallInOrder(c, ws[n].runs, ws[n].calls, c.callName(job));
  }

  /** Of two Runs of one job one comes before the other. */
  lemma RunsAreOrdered(c: Config, k: StepKey, other: StepKey)
    requires KeyKnown(c, k) && KeyKnown(c, other) && k.job == other.job && k != other
    ensures Before(c, k, other) || Before(c, other, k)
  {
    var specs := c.jobs[k.job].steps;
    var i :| 0 <= i < |specs| && KeyAt(c, k, specs[i]);
    var j :| 0 <= j < |specs| && KeyAt(c, other, specs[j]);
    if i == j {
      var names := c.actions[ActionKey(k.job, k.step)].steps;
      var a :| 0 <= a < |names| && names[a] == k.action;
      var b :| 0 <= b < |names| && names[b] == other.action;
      assert InnerBefore(names, k.action, other.action) || InnerBefore(names, other.action, k.action);
      assert BeforeAt(c, k, other, i, j) || BeforeAt(c, other, k, j, i);
    } else if i < j {
      assert BeforeAt(c, k, other, i, j);
    } else {
      assert BeforeAt(c, other, k, j, i);
    }
  }

  /** Whatever patches are lost, a job has at most one child Run that has not finished. */
  lemma LossyAtMostOneActive(c: Config, ws: seq<World>, es: seq<Event>, n: nat, k: StepKey, other: StepKey)
    requires NamesDistinct(c) && Behaviour(c, ws, es) && n < |ws|
    requires k in ws[n].runs && other in ws[n].runs && k.job == other.job
    requires !ws[n].runs[k].phase.Terminal() && !ws[n].runs[other].phase.Terminal()
    ensures k == other
  {
    LossyStartsInOrder(c, ws, es, n, k);
    LossyStartsInOrder(c, ws, es, n, other);
    if k != other {
      RunsAreOrdered(c, k, other);
    }
  }
}
