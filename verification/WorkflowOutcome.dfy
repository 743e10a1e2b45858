/** What one reconcile makes of its children's results: when steps, jobs and the WorkflowRun succeed or fail. */
module WorkflowOutcome {
  import opened Common
  import opened WorkflowStatus
  import opened WorkflowDerive
  import opened WorkflowPlan
  import opened WorkflowInvariant
  import opened WorkflowMachine
  import opened WorkflowExpressions
  import L = WorkflowLossy
  import T = WorkflowTransparency
  import SkipPropagation
  import WorkflowEnvironment

  /** The status of the job after derivation. */
  ghost function DerivedJob(c: Config, w: World, job: string): JobStatus
    requires w.status.jobs.Some? && job in w.status.jobs.value
  {
    var d := Derive(c, w);
    if d.jobs.Some? && job in d.jobs.value then d.jobs.value[job] else w.status.jobs.value[job]
  }

  /** The context in which the outputs of a job are resolved. */
  ghost function JobOutputContext(steps: seq<StepStatus>): ResolveContext {
    ResolveContext(None, StepContext(steps), map[])
  }

  // ---- jobs -----------------------------------------------------------------

  lemma RunningNotSkipped(jobs: JobStatuses, job: string)
    requires job in jobs && !jobs[job].phase.Unstarted()
    ensures SkipPropagation.Skipped(jobs)[job] == jobs[job]
  {
    SkipPropagation.BlockedStep(jobs, job);
  }

  /** Derivation of a job that has started, one stage after the other. */
  lemma StartedJobDerived(c: Config, w: World, job: string)
    requires w.status.jobs.Some? && job in w.status.jobs.value && job in c.jobs
    requires !w.status.jobs.value[job].phase.Unstarted()
    ensures var jobs := w.status.jobs.value;
            var acted := ActionsDerived(c, Projected(c, jobs, w.runs));
            && job in acted && acted[job] == jobs[job].(steps := acted[job].steps)
            && Derive(c, w).jobs.Some? && job in Derive(c, w).jobs.value
            && DerivedJob(c, w, job) == JobClosed(c, job, CallDerived(acted[job], w.calls))
  {
    hide ProjectedSteps, ActionsDone, JobClosed, CallDerived, SkipPropagation.Skipped, SkipPropagation.Blocked;
    var jobs := w.status.jobs.value;
    var r := JobsDerived(c, jobs, w.runs, w.calls);
    PhaseKept(c, job, ActionsDerived(c, Projected(c, jobs, w.runs))[job], w.calls);
    SkippedKeys(r);
    RunningNotSkipped(r, job);
  }

  lemma RunningIsStarted(phase: JobPhase)
    ensures phase.JobRunning? ==> !phase.Unstarted()
  {
  }

  lemma SkippedKeys(jobs: JobStatuses)
    ensures SkipPropagation.Skipped(jobs).Keys == jobs.Keys
  {
  }

  lemma PhaseKept(c: Config, job: string, status: JobStatus, calls: map<string, ChildWorkflow>)
    requires !status.phase.Unstarted()
    ensures !JobClosed(c, job, CallDerived(status, calls)).phase.Unstarted()
  {
  }

  /**
    * A running job with steps succeeds exactly when all its steps have and every output it declares
    * resolves, and then has those values for outputs; it fails exactly when a step has failed or an output
    * does not resolve; otherwise it goes on running.
    */
  lemma JobOutcome(c: Config, ws: seq<World>, es: seq<Event>, n: nat, job: string)
    requires NamesDistinct(c) && Behaviour(c, ws, es) && n < |ws| && ws[n].status.jobs.Some?
    requires job in c.jobs && c.jobs[job].uses == "" && job in ws[n].status.jobs.value
    requires ws[n].status.jobs.value[job].phase.JobRunning?
    ensures var d := DerivedJob(c, ws[n], job);
            var ctx := JobOutputContext(d.steps);
            && (d.phase.JobSucceeded? <==> AllSucceeded(d.steps) && Resolves(c, c.jobs[job].outputs, ctx))
            && (d.phase.JobSucceeded? ==> ValuesOf(c, c.jobs[job].outputs, ctx, d.outputs))
            && (d.phase.JobFailed? <==>
                  SomeFailed(d.steps) || (AllSucceeded(d.steps) && !Resolves(c, c.jobs[job].outputs, ctx)))
            && (d.phase.JobSucceeded? || d.phase.JobFailed? || d.phase.JobRunning?)
  {
    hide *;
    BehaviourKeepsInv(c, ws, es, n);
    JobOutcomeAt(c, ws[n], job);
  }

  lemma JobOutcomeAt(c: Config, w: World, job: string)
    requires Inv(c, w) && w.status.jobs.Some? && job in c.jobs && c.jobs[job].uses == ""
    requires job in w.status.jobs.value && w.status.jobs.value[job].phase.JobRunning?
    ensures var d := DerivedJob(c, w, job);
            var ctx := JobOutputContext(d.steps);
            && (d.phase.JobSucceeded? <==> AllSucceeded(d.steps) && Resolves(c, c.jobs[job].outputs, ctx))
            && (d.phase.JobSucceeded? ==> ValuesOf(c, c.jobs[job].outputs, ctx, d.outputs))
            && (d.phase.JobFailed? <==>
                  SomeFailed(d.steps) || (AllSucceeded(d.steps) && !Resolves(c, c.jobs[job].outputs, ctx)))
            && (d.phase.JobSucceeded? || d.phase.JobFailed? || d.phase.JobRunning?)
  {
    hide *;
    RunningIsStarted(w.status.jobs.value[job].phase);
    StepsExist(c, w, job);
    StartedJobDerived(c, w, job);
    DerivedLength(c, w, job);
    var acted := ActionsDerived(c, Projected(c, w.status.jobs.value, w.runs));
    ClosedOutcome(c, job, acted[job], w.calls);
  }

  lemma StepsExist(c: Config, w: World, job: string)
    requires Inv(c, w) && w.status.jobs.Some? && job in c.jobs && c.jobs[job].uses == ""
    ensures job in w.status.jobs.value && |w.status.jobs.value[job].steps| == |c.jobs[job].steps| > 0
    ensures w.status.jobs.value[job].workflowRunName == ""
  {
    assert JobOk(c, job, w.status.jobs.value, w.runs, w.calls) && JobWellFormed(c.jobs[job]);
  }

  lemma DerivedLength(c: Config, w: World, job: string)
    requires w.status.jobs.Some? && job in w.status.jobs.value && job in c.jobs
    ensures var acted := ActionsDerived(c, Projected(c, w.status.jobs.value, w.runs));
            job in acted && |acted[job].steps| == |w.status.jobs.value[job].steps|
  {
    hide ProjectedStep;
  }

  lemma ClosedOutcome(c: Config, job: string, status: JobStatus, calls: map<string, ChildWorkflow>)
    requires job in c.jobs && status.phase.JobRunning? && status.workflowRunName == "" && status.steps != []
    ensures var d := JobClosed(c, job, CallDerived(status, calls));
            var ctx := JobOutputContext(d.steps);
            && (d.phase.JobSucceeded? <==> AllSucceeded(d.steps) && Resolves(c, c.jobs[job].outputs, ctx))
            && (d.phase.JobSucceeded? ==> ValuesOf(c, c.jobs[job].outputs, ctx, d.outputs))
            && (d.phase.JobFailed? <==>
                  SomeFailed(d.steps) || (AllSucceeded(d.steps) && !Resolves(c, c.jobs[job].outputs, ctx)))
            && (d.phase.JobSucceeded? || d.phase.JobFailed? || d.phase.JobRunning?)
  {
    ResolveAllIs(c, c.jobs[job].outputs, JobOutputContext(status.steps));
    hide ResolveAll, Resolves, ValuesOf, StepContext;
  }

  /** A running job that calls a workflow takes over the result of its child. */
  lemma CallOutcome(c: Config, ws: seq<World>, es: seq<Event>, n: nat, job: string)
    requires NamesDistinct(c) && Behaviour(c, ws, es) && n < |ws| && ws[n].status.jobs.Some?
    requires job in c.jobs && c.jobs[job].uses != "" && job in ws[n].status.jobs.value
    requires ws[n].status.jobs.value[job].phase.JobRunning?
    ensures c.callName(job) in ws[n].calls
    ensures var d, child := DerivedJob(c, ws[n], job), ws[n].calls[c.callName(job)];
            var ok := child.phase.WorkflowSucceeded? && child.outputs.Some?;
            && (d.phase.JobSucceeded? <==> ok) && (ok ==> Some(d.outputs) == child.outputs)
            && (d.phase.JobFailed? <==> child.phase.Terminal() && !ok)
            && (d.phase.JobSucceeded? || d.phase.JobFailed? || d.phase.JobRunning?)
  {
    hide *;
    BehaviourKeepsInv(c, ws, es, n);
    CallOutcomeAt(c, ws[n], job);
  }

  lemma CallOutcomeAt(c: Config, w: World, job: string)
    requires NamesDistinct(c) && Inv(c, w) && w.status.jobs.Some? && job in c.jobs && c.jobs[job].uses != ""
    requires job in w.status.jobs.value && w.status.jobs.value[job].phase.JobRunning?
    ensures c.callName(job) in w.calls
    ensures var d, child := DerivedJob(c, w, job), w.calls[c.callName(job)];
            var ok := child.phase.WorkflowSucceeded? && child.outputs.Some?;
            && (d.phase.JobSucceeded? <==> ok) && (ok ==> Some(d.outputs) == child.outputs)
            && (d.phase.JobFailed? <==> child.phase.Terminal() && !ok)
            && (d.phase.JobSucceeded? || d.phase.JobFailed? || d.phase.JobRunning?)
  {
    hide *;
    RunningIsStarted(w.status.jobs.value[job].phase);
    CallExists(c, w, job);
    StartedJobDerived(c, w, job);
    DerivedLength(c, w, job);
    var acted := ActionsDerived(c, Projected(c, w.status.jobs.value, w.runs));
    CalledOutcome(c, job, acted[job], w.calls);
  }

  lemma CallExists(c: Config, w: World, job: string)
    requires NamesDistinct(c) && Inv(c, w) && w.status.jobs.Some? && job in c.jobs && c.jobs[job].uses != ""
    requires job in w.status.jobs.value && w.status.jobs.value[job].phase.JobRunning?
    ensures w.status.jobs.value[job].workflowRunName == c.callName(job) && c.callName(job) in w.calls
    ensures c.callName(job) != ""
    ensures w.status.jobs.value[job].steps == []
  {
    assert JobOk(c, job, w.status.jobs.value, w.runs, w.calls) && JobWellFormed(c.jobs[job]);
  }

  lemma CalledOutcome(c: Config, job: string, status: JobStatus, calls: map<string, ChildWorkflow>)
    requires status.phase.JobRunning? && status.workflowRunName in calls && status.workflowRunName != ""
    requires status.steps == []
    ensures var d, child := JobClosed(c, job, CallDerived(status, calls)), calls[status.workflowRunName];
            var ok := child.phase.WorkflowSucceeded? && child.outputs.Some?;
            && (d.phase.JobSucceeded? <==> ok) && (ok ==> Some(d.outputs) == child.outputs)
            && (d.phase.JobFailed? <==> child.phase.Terminal() && !ok)
            && (d.phase.JobSucceeded? || d.phase.JobFailed? || d.phase.JobRunning?)
  {
  }

  // ---- steps ----------------------------------------------------------------

  /** The steps of a derived job, one stage after the other. */
  lemma StepsDerived(c: Config, w: World, job: string)
    requires w.status.jobs.Some? && job in w.status.jobs.value && job in c.jobs
    ensures var jobs := w.status.jobs.value;
            DerivedJob(c, w, job).steps
            == ActionsDone(c, job, c.jobs[job].steps, ProjectedSteps(c, job, jobs[job].steps, w.runs),
                           JobContext(Projected(c, jobs, w.runs)), |c.jobs[job].steps|)
  {
    hide JobsDerived, ProjectedSteps, ActionsDone, JobContext, SkipPropagation.Skipped;
    var r := JobsDerived(c, w.status.jobs.value, w.runs, w.calls);
    T.DerivedSteps(c, w.status.jobs.value, w.runs, w.calls, job);
    T.SkippedSteps(r);
  }

  lemma {:induction false} InlineUndecided(
      c: Config, job: string, specs: seq<StepSpec>, steps: seq<StepStatus>, ctx: map<string, Outputs>, n: nat, i: nat)
    requires n <= |specs| && i < |steps| && i < |specs| && (specs[i].uses == "" || n <= i)
    ensures ActionsDone(c, job, specs, steps, ctx, n)[i] == steps[i]
  {
    hide DeriveActionCall, StepContext;
    if n > 0 {
      InlineUndecided(c, job, specs, steps, ctx, n - 1, i);
    }
  }

  /** In a job of a consistent WorkflowRun every step receives its own results. */
  lemma ProjectedAt(c: Config, w: World, job: string, i: nat)
    requires NamesDistinct(c) && Inv(c, w) && w.status.jobs.Some? && job in c.jobs
    requires job in w.status.jobs.value && i < |w.status.jobs.value[job].steps|
    ensures i < |c.jobs[job].steps| == |w.status.jobs.value[job].steps|
    ensures StepOk(c, job, c.jobs[job].steps[i], w.status.jobs.value[job].steps[i], w.runs) && RunsKnown(c, w.runs)
    ensures ProjectedSteps(c, job, w.status.jobs.value[job].steps, w.runs)[i]
         == ProjectedStep(c, job, w.status.jobs.value[job].steps[i], w.runs)
  {
    hide ProjectedStep;
    DistinctSteps(c, w, job);
    hide Inv, NamesDistinct, StepOk, RunsKnown;
    FindStepAt(w.status.jobs.value[job].steps, i);
  }

  lemma DistinctSteps(c: Config, w: World, job: string)
    requires NamesDistinct(c) && Inv(c, w) && w.status.jobs.Some? && job in c.jobs && job in w.status.jobs.value
    ensures |c.jobs[job].steps| == |w.status.jobs.value[job].steps| && RunsKnown(c, w.runs)
    ensures var steps := w.status.jobs.value[job].steps;
            && (forall j :: 0 <= j < |steps| ==> StepOk(c, job, c.jobs[job].steps[j], steps[j], w.runs))
            && (forall i, j :: 0 <= j < i < |steps| ==> steps[j].name != steps[i].name)
  {
    var steps := w.status.jobs.value[job].steps;
    assert JobOk(c, job, w.status.jobs.value, w.runs, w.calls);
    forall i, j | 0 <= j < i < |steps| ensures steps[j].name != steps[i].name {
      assert StepOk(c, job, c.jobs[job].steps[j], steps[j], w.runs);
      assert StepOk(c, job, c.jobs[job].steps[i], steps[i], w.runs);
    }
  }

  /**
    * An inline step has succeeded exactly when its Run has, with environment outputs that are well formed,
    * and then carries the outputs of that Run; it has failed exactly when its Run ended otherwise, or when
    * it failed before a Run was created.
    */
  lemma InlineStepOutcome(c: Config, ws: seq<World>, es: seq<Event>, n: nat, job: string, i: nat)
    requires NamesDistinct(c) && Behaviour(c, ws, es) && n < |ws| && ws[n].status.jobs.Some?
    requires job in c.jobs && job in ws[n].status.jobs.value && i < |ws[n].status.jobs.value[job].steps|
    requires i < |c.jobs[job].steps| && c.jobs[job].steps[i].uses == ""
    ensures i < |DerivedJob(c, ws[n], job).steps|
    ensures var s, d := ws[n].status.jobs.value[job].steps[i], DerivedJob(c, ws[n], job).steps[i];
            var key := StepKey(job, c.jobs[job].steps[i].name, "");
            && (d.phase.StepSucceeded? <==> L.Done(c, ws[n].runs, key))
            && (d.phase.StepSucceeded? ==> d.outputs == ws[n].runs[key].outputs)
            && (d.phase.StepFailed? <==>
                  if key in ws[n].runs then ws[n].runs[key].phase.Terminal() && !Good(c, ws[n].runs[key])
                  else s.phase.StepFailed?)
  {
    hide *;
    BehaviourKeepsInv(c, ws, es, n);
    InlineStepDerived(c, ws[n], job, i);
    InlineProjected(c, job, i, ws[n].status.jobs.value[job].steps[i], ws[n].runs);
  }

  lemma InlineStepDerived(c: Config, w: World, job: string, i: nat)
    requires NamesDistinct(c) && Inv(c, w) && w.status.jobs.Some? && job in c.jobs && job in w.status.jobs.value
    requires i < |w.status.jobs.value[job].steps| && i < |c.jobs[job].steps| && c.jobs[job].steps[i].uses == ""
    ensures i < |DerivedJob(c, w, job).steps|
    ensures DerivedJob(c, w, job).steps[i] == ProjectedStep(c, job, w.status.jobs.value[job].steps[i], w.runs)
    ensures StepOk(c, job, c.jobs[job].steps[i], w.status.jobs.value[job].steps[i], w.runs) && RunsKnown(c, w.runs)
  {
    hide *;
    ProjectedAt(c, w, job, i);
    StepsDerived(c, w, job);
    InlineUndecided(c, job, c.jobs[job].steps, ProjectedSteps(c, job, w.status.jobs.value[job].steps, w.runs),
                    JobContext(Projected(c, w.status.jobs.value, w.runs)), |c.jobs[job].steps|, i);
  }

  lemma InlineProjected(c: Config, job: string, i: nat, s: StepStatus, runs: map<StepKey, Run>)
    requires NamesDistinct(c) && RunsKnown(c, runs) && job in c.jobs && i < |c.jobs[job].steps|
    requires c.jobs[job].steps[i].uses == "" && StepOk(c, job, c.jobs[job].steps[i], s, runs)
    ensures var d := ProjectedStep(c, job, s, runs);
            var key := StepKey(job, c.jobs[job].steps[i].name, "");
            && (d.phase.StepSucceeded? <==> L.Done(c, runs, key))
            && (d.phase.StepSucceeded? ==> d.outputs == runs[key].outputs)
            && (d.phase.StepFailed? <==>
                  if key in runs then runs[key].phase.Terminal() && !Good(c, runs[key]) else s.phase.StepFailed?)
  {
    NoActionRuns(c, job, i, runs);
    hide NamesDistinct, RunsKnown, BadActionRun;
  }

  // ---- Action calls ---------------------------------------------------------

  lemma {:induction false} LaterUndecided(
      c: Config, job: string, specs: seq<StepSpec>, steps: seq<StepStatus>, ctx: map<string, Outputs>, n: nat, i: nat)
    requires i < n <= |specs| && i < |steps|
    ensures ActionsDone(c, job, specs, steps, ctx, n)[i] == ActionsDone(c, job, specs, steps, ctx, i + 1)[i]
  {
    hide DeriveActionCall, StepContext;
    if i + 1 < n {
      LaterUndecided(c, job, specs, steps, ctx, n - 1, i);
    }
  }

  /** The job before its i-th step is looked at: what came before is decided, the rest is not. */
  lemma DecidedUpTo(
      c: Config, job: string, specs: seq<StepSpec>, steps: seq<StepStatus>, ctx: map<string, Outputs>, i: nat)
    requires i < |specs| == |steps|
    ensures var before := ActionsDone(c, job, specs, steps, ctx, i);
            && before[..i] == ActionsDone(c, job, specs, steps, ctx, |specs|)[..i]
            && before[i..] == steps[i..]
  {
    hide ActionsDone;
    forall j | 0 <= j < i
      ensures ActionsDone(c, job, specs, steps, ctx, i)[j] == ActionsDone(c, job, specs, steps, ctx, |specs|)[j]
    {
      LaterUndecided(c, job, specs, steps, ctx, i, j);
      LaterUndecided(c, job, specs, steps, ctx, |specs|, j);
    }
    forall j | i <= j < |steps| ensures ActionsDone(c, job, specs, steps, ctx, i)[j] == steps[j] {
      InlineUndecided(c, job, specs, steps, ctx, i, j);
    }
  }

  lemma CallDecided(
      c: Config, job: string, specs: seq<StepSpec>, steps: seq<StepStatus>, ctx: map<string, Outputs>, i: nat)
    requires i < |specs| == |steps| && specs[i].uses != ""
    requires !steps[i].phase.Terminal() ==> forall j :: i < j < |steps| ==> !steps[j].phase.StepSucceeded?
    ensures var r := ActionsDone(c, job, specs, steps, ctx, |specs|);
            r[i] == DeriveActionCall(c, job, specs[i], steps[i], ResolveContext(None, StepContext(r[..i]), ctx))
  {
    hide DeriveActionCall, StepContext;
    var r, before := ActionsDone(c, job, specs, steps, ctx, |specs|), ActionsDone(c, job, specs, steps, ctx, i);
    LaterUndecided(c, job, specs, steps, ctx, |specs|, i);
    DecidedUpTo(c, job, specs, steps, ctx, i);
    assert before[i] == before[i..][0] == steps[i];
    if steps[i].phase.Terminal() {
      TerminalCallKept(c, job, specs[i], steps[i], ResolveContext(None, StepContext(before), ctx));
      TerminalCallKept(c, job, specs[i], steps[i], ResolveContext(None, StepContext(r[..i]), ctx));
    } else {
      forall j | i <= j < |before| ensures !before[j].phase.StepSucceeded? {
        assert before[j] == before[i..][j - i] == steps[j];
      }
      ContextOfFront(before, i);
    }
  }

  lemma TerminalCallKept(c: Config, job: string, spec: StepSpec, s: StepStatus, ctx: ResolveContext)
    requires s.phase.Terminal()
    ensures DeriveActionCall(c, job, spec, s, ctx) == s
  {
  }

  lemma LaterUntouched(c: Config, w: World, job: string, i: nat, j: nat)
    requires NamesDistinct(c) && Inv(c, w) && w.status.jobs.Some? && job in c.jobs && job in w.status.jobs.value
    requires i < j < |w.status.jobs.value[job].steps| && !w.status.jobs.value[job].steps[i].phase.StepSucceeded?
    ensures !ProjectedSteps(c, job, w.status.jobs.value[job].steps, w.runs)[j].phase.StepSucceeded?
  {
    var steps := w.status.jobs.value[job].steps;
    assert JobOk(c, job, w.status.jobs.value, w.runs, w.calls) && ActionsResolved(c, job);
    hide ProjectedSteps, StepOk, NamesDistinct;
    assert Untouched(steps[j]);
    ProjectedStepsOk(c, job, steps, w.runs);
  }

  /** Derivation of an Action call: projection, then a decision that sees the steps before it and the jobs. */
  lemma ActionStepDerived(c: Config, w: World, job: string, i: nat)
    requires NamesDistinct(c) && Inv(c, w) && w.status.jobs.Some? && job in c.jobs && job in w.status.jobs.value
    requires i < |w.status.jobs.value[job].steps| && i < |c.jobs[job].steps| && c.jobs[job].steps[i].uses != ""
    ensures |DerivedJob(c, w, job).steps| == |w.status.jobs.value[job].steps| == |c.jobs[job].steps|
    ensures var d, jobs := DerivedJob(c, w, job), w.status.jobs.value;
            d.steps[i] ==
            DeriveActionCall(c, job, c.jobs[job].steps[i], ProjectedStep(c, job, jobs[job].steps[i], w.runs),
                             ResolveContext(None, StepContext(d.steps[..i]), JobContext(jobs)))
    ensures StepOk(c, job, c.jobs[job].steps[i], w.status.jobs.value[job].steps[i], w.runs) && RunsKnown(c, w.runs)
    ensures ActionsResolved(c, job)
  {
    var jobs := w.status.jobs.value;
    var steps := jobs[job].steps;
    assert ActionsResolved(c, job);
    ProjectedAt(c, w, job, i);
    ProjectedContext(c, jobs, w.runs);
    hide ProjectedStep, DeriveActionCall, StepContext, JobContext, ActionsDone, Derive, Inv, NamesDistinct, StepOk,
         RunsKnown, ProjectedSteps;
    StepsDerived(c, w, job);
    var projected := ProjectedSteps(c, job, steps, w.runs);
    if !projected[i].phase.Terminal() {
      if steps[i].phase.StepSucceeded? {
        SucceededProjected(c, w, job, i);
      }
      forall j | i < j < |steps| ensures !projected[j].phase.StepSucceeded? {
        LaterUntouched(c, w, job, i, j);
      }
    }
    CallDecided(c, job, c.jobs[job].steps, projected, JobContext(Projected(c, jobs, w.runs)), i);
  }

  lemma SucceededProjected(c: Config, w: World, job: string, i: nat)
    requires NamesDistinct(c) && Inv(c, w) && w.status.jobs.Some? && job in c.jobs && job in w.status.jobs.value
    requires i < |w.status.jobs.value[job].steps| && w.status.jobs.value[job].steps[i].phase.StepSucceeded?
    ensures ProjectedSteps(c, job, w.status.jobs.value[job].steps, w.runs)[i].phase.StepSucceeded?
  {
    assert JobOk(c, job, w.status.jobs.value, w.runs, w.calls) && ActionsResolved(c, job);
    hide ProjectedSteps, StepOk, NamesDistinct;
    ProjectedStepsOk(c, job, w.status.jobs.value[job].steps, w.runs);
  }

  lemma ProjectedContext(c: Config, jobs: JobStatuses, runs: map<StepKey, Run>)
    ensures JobContext(Projected(c, jobs, runs)) == JobContext(jobs)
  {
    hide ProjectedSteps;
  }

  ghost function InnerKey(job: string, step: string, action: ActionSpec, a: nat): StepKey
    requires a < |action.steps|
  {
    StepKey(job, step, action.steps[a])
  }

  /** Every Run of the call has succeeded, with environment outputs that are well formed. */
  ghost predicate AllDone(c: Config, job: string, step: string, action: ActionSpec, runs: map<StepKey, Run>) {
    forall a :: 0 <= a < |action.steps| ==> L.Done(c, runs, InnerKey(job, step, action, a))
  }

  /** One of its Runs ended otherwise, or an inner step was recorded as failed. */
  ghost predicate SomeSpoilt(
      c: Config, job: string, s: StepStatus, action: ActionSpec, runs: map<StepKey, Run>)
  {
    exists a :: 0 <= a < |action.steps| && a < |s.actionSteps| && Spoilt(c, job, s, action, runs, a)
  }

  ghost predicate Spoilt(
      c: Config, job: string, s: StepStatus, action: ActionSpec, runs: map<StepKey, Run>, a: nat)
    requires a < |action.steps| && a < |s.actionSteps|
  {
    var key := InnerKey(job, s.name, action, a);
    s.actionSteps[a].phase.StepFailed? || (Finished(runs, key) && !Good(c, runs[key]))
  }

  lemma InnerProjected(c: Config, job: string, i: nat, s: StepStatus, runs: map<StepKey, Run>, a: nat)
    requires NamesDistinct(c) && job in c.jobs && i < |c.jobs[job].steps| && ActionsResolved(c, job)
    requires c.jobs[job].steps[i].uses != "" && StepOk(c, job, c.jobs[job].steps[i], s, runs)
    requires a < |s.actionSteps|
    ensures var d, action := ProjectedStep(c, job, s, runs), c.actions[ActionKey(job, s.name)];
            && |d.actionSteps| == |s.actionSteps| == |action.steps| && d.actionSteps[a].name == action.steps[a]
            && var key := InnerKey(job, s.name, action, a);
               && (d.actionSteps[a].phase.StepSucceeded? <==> L.Done(c, runs, key))
               && (d.actionSteps[a].phase.StepSucceeded? ==> d.actionSteps[a].outputs == runs[key].outputs)
               && (d.actionSteps[a].phase.StepFailed? ==> Spoilt(c, job, s, action, runs, a))
               && (Spoilt(c, job, s, action, runs, a) ==>
                     d.actionSteps[a].phase.StepFailed? || BadRunOf(c, runs, key))
  {
    var inner := s.actionSteps;
    assert SlotOk(c, runs, StepKey(job, s.name, inner[a].name), inner[a].phase, inner[a].runName);
    assert forall b :: 0 <= b < a ==> inner[b].name != inner[a].name;
    FindActionStepAt(inner, a);
    hide BadActionRun;
  }

  ghost predicate BadRunOf(c: Config, runs: map<StepKey, Run>, key: StepKey) {
    Finished(runs, key) && !c.environmentOk(runs[key].outputs)
  }

  /** A bad Run of the call is one of its inner steps'. */
  lemma BadIsInner(c: Config, job: string, i: nat, s: StepStatus, runs: map<StepKey, Run>)
    requires NamesDistinct(c) && RunsKnown(c, runs) && job in c.jobs && i < |c.jobs[job].steps|
    requires c.jobs[job].steps[i].uses != "" && StepOk(c, job, c.jobs[job].steps[i], s, runs)
    ensures var action := c.actions[ActionKey(job, s.name)];
            && (BadActionRun(c, job, s.name, runs) ==> SomeSpoilt(c, job, s, action, runs))
            && (forall a :: 0 <= a < |action.steps| && BadRunOf(c, runs, InnerKey(job, s.name, action, a)) ==>
                  BadActionRun(c, job, s.name, runs))
  {
    var action := c.actions[ActionKey(job, s.name)];
    if BadActionRun(c, job, s.name, runs) {
      var k :| Finished(runs, k) && k.job == job && k.step == s.name && k.action != ""
          && !c.environmentOk(runs[k].outputs);
      KeyAtItsStep(c, job, i, runs, k);
      var a :| 0 <= a < |action.steps| && action.steps[a] == k.action;
      assert InnerKey(job, s.name, action, a) == k;
      assert Spoilt(c, job, s, action, runs, a);
    }
  }

  /** The decision about an Action call, from its Runs and the expressions it was given. */
  ghost predicate CallDecision(
      c: Config, job: string, spec: StepSpec, s: StepStatus, d: StepStatus, runs: map<StepKey, Run>,
      ctx: ResolveContext)
    requires ActionKey(job, spec.name) in c.actions
  {
    var action := c.actions[ActionKey(job, spec.name)];
    var open := !s.phase.Terminal();
    var resolves := ActionResolves(c, action, d.actionSteps, spec.inputs, ctx);
    && (d.phase.StepSucceeded? <==>
          s.phase.StepSucceeded? || (open && AllDone(c, job, s.name, action, runs) && resolves))
    && (d.phase.StepFailed? <==>
          || s.phase.StepFailed?
          || (open && (SomeSpoilt(c, job, s, action, runs) || (AllDone(c, job, s.name, action, runs) && !resolves))))
    && (d.phase.StepSucceeded? && open ==>
          exists declared ::
            && DeclaredOutputs(c, action, d.actionSteps, spec.inputs, ctx, declared)
            && d.outputs == WorkflowEnvironment.WORKFLOW_ENVIRONMENT.CollectActionOutputs(declared, d.actionSteps))
  }

  lemma InnerAllDone(c: Config, job: string, i: nat, s: StepStatus, runs: map<StepKey, Run>)
    requires NamesDistinct(c) && RunsKnown(c, runs) && job in c.jobs && i < |c.jobs[job].steps|
    requires ActionsResolved(c, job)
    requires c.jobs[job].steps[i].uses != "" && StepOk(c, job, c.jobs[job].steps[i], s, runs)
    ensures var p, action := ProjectedStep(c, job, s, runs), c.actions[ActionKey(job, s.name)];
            && |p.actionSteps| == |action.steps| > 0
            && (ActionCallPhase(p.actionSteps).StepSucceeded? <==> AllDone(c, job, s.name, action, runs))
            && (BadActionRun(c, job, s.name, runs) || ActionCallPhase(p.actionSteps).StepFailed? <==>
                  SomeSpoilt(c, job, s, action, runs))
            && (AllDone(c, job, s.name, action, runs) ==> !SomeSpoilt(c, job, s, action, runs))
  {
    var p, action := ProjectedStep(c, job, s, runs), c.actions[ActionKey(job, s.name)];
    BadIsInner(c, job, i, s, runs);
    assert ActionWellFormed(action);
    forall a | 0 <= a < |p.actionSteps|
      ensures |s.actionSteps| == |action.steps| == |p.actionSteps|
      ensures p.actionSteps[a].phase.StepSucceeded? <==> L.Done(c, runs, InnerKey(job, s.name, action, a))
      ensures p.actionSteps[a].phase.StepFailed? ==> Spoilt(c, job, s, action, runs, a)
      ensures Spoilt(c, job, s, action, runs, a) ==>
                p.actionSteps[a].phase.StepFailed? || BadActionRun(c, job, s.name, runs)
      ensures Spoilt(c, job, s, action, runs, a) ==> !L.Done(c, runs, InnerKey(job, s.name, action, a))
    {
      InnerProjected(c, job, i, s, runs, a);
      SpoiltIsNotDone(c, job, i, s, runs, a);
    }
    SameLength(c, job, i, s, runs);
    hide ProjectedStep, StepOk, NamesDistinct, RunsKnown, BadActionRun, L.Done, Spoilt, InnerKey;
  }

  lemma SameLength(c: Config, job: string, i: nat, s: StepStatus, runs: map<StepKey, Run>)
    requires job in c.jobs && i < |c.jobs[job].steps| && c.jobs[job].steps[i].uses != ""
    requires StepOk(c, job, c.jobs[job].steps[i], s, runs)
    ensures |ProjectedStep(c, job, s, runs).actionSteps| == |s.actionSteps|
         == |c.actions[ActionKey(job, s.name)].steps|
  {
  }

  lemma SpoiltIsNotDone(c: Config, job: string, i: nat, s: StepStatus, runs: map<StepKey, Run>, a: nat)
    requires job in c.jobs && i < |c.jobs[job].steps| && c.jobs[job].steps[i].uses != ""
    requires StepOk(c, job, c.jobs[job].steps[i], s, runs) && a < |s.actionSteps|
    ensures var action := c.actions[ActionKey(job, s.name)];
            && a < |action.steps|
            && (Spoilt(c, job, s, action, runs, a) ==> !L.Done(c, runs, InnerKey(job, s.name, action, a)))
  {
    var inner := s.actionSteps;
    assert SlotOk(c, runs, StepKey(job, s.name, inner[a].name), inner[a].phase, inner[a].runName);
  }

  lemma DecidedCall(
      c: Config, job: string, i: nat, s: StepStatus, runs: map<StepKey, Run>, ctx: ResolveContext)
    requires NamesDistinct(c) && RunsKnown(c, runs) && job in c.jobs && i < |c.jobs[job].steps|
    requires ActionsResolved(c, job)
    requires c.jobs[job].steps[i].uses != "" && StepOk(c, job, c.jobs[job].steps[i], s, runs)
    ensures var spec := c.jobs[job].steps[i];
            var d := DeriveActionCall(c, job, spec, ProjectedStep(c, job, s, runs), ctx);
            ActionKey(job, spec.name) in c.actions && CallDecision(c, job, spec, s, d, runs, ctx)
  {
    var spec, p := c.jobs[job].steps[i], ProjectedStep(c, job, s, runs);
    InnerAllDone(c, job, i, s, runs);
    ProjectedStepOk(c, job, i, s, runs);
    CallPhaseProjected(c, job, i, s, runs);
    T.StepNamed(c, job, spec, s, runs);
    ActionOutputsAre(c, c.actions[ActionKey(job, spec.name)], p.actionSteps, spec.inputs, ctx);
    hide ProjectedStep, StepOk, NamesDistinct, RunsKnown, BadActionRun, AllDone, SomeSpoilt, ActionResolves,
         ResolveActionOutputs, DeclaredOutputs, ActionsResolved;
  }

  lemma CallPhaseProjected(c: Config, job: string, i: nat, s: StepStatus, runs: map<StepKey, Run>)
    requires NamesDistinct(c) && RunsKnown(c, runs) && job in c.jobs && i < |c.jobs[job].steps|
    requires c.jobs[job].steps[i].uses != "" && StepOk(c, job, c.jobs[job].steps[i], s, runs)
    ensures ProjectedStep(c, job, s, runs).phase
         == if BadActionRun(c, job, s.name, runs) then StepFailed else s.phase
    ensures ActionKey(job, c.jobs[job].steps[i].name) in c.actions
  {
    NoInlineRun(c, job, i, runs);
    hide BadActionRun;
  }

  /**
    * An Action call that is still open succeeds exactly when all its Runs have and both its inputs and its
    * outputs resolve in the context of the steps before it and the finished jobs, and then carries the
    * declared outputs with what its Runs published; it fails exactly when one of its Runs ended otherwise or
    * an expression does not resolve. Its inner steps succeed exactly with their Runs, whose outputs they carry.
    */
  lemma ActionCallOutcome(c: Config, ws: seq<World>, es: seq<Event>, n: nat, job: string, i: nat)
    requires NamesDistinct(c) && Behaviour(c, ws, es) && n < |ws| && ws[n].status.jobs.Some?
    requires job in c.jobs && job in ws[n].status.jobs.value && i < |ws[n].status.jobs.value[job].steps|
    requires i < |c.jobs[job].steps| && c.jobs[job].steps[i].uses != ""
    ensures i < |DerivedJob(c, ws[n], job).steps| && ActionKey(job, c.jobs[job].steps[i].name) in c.actions
    ensures var jobs, d := ws[n].status.jobs.value, DerivedJob(c, ws[n], job);
            CallDecision(c, job, c.jobs[job].steps[i], jobs[job].steps[i], d.steps[i], ws[n].runs,
                         ResolveContext(None, StepContext(d.steps[..i]), JobContext(jobs)))
    ensures var action := c.actions[ActionKey(job, c.jobs[job].steps[i].name)];
            var inner := DerivedJob(c, ws[n], job).steps[i].actionSteps;
            && |inner| == |action.steps|
            && forall a :: 0 <= a < |inner| ==>
                 var key := InnerKey(job, c.jobs[job].steps[i].name, action, a);
                 && (inner[a].phase.StepSucceeded? <==> L.Done(c, ws[n].runs, key))
                 && (inner[a].phase.StepSucceeded? ==> inner[a].outputs == ws[n].runs[key].outputs)
  {
    hide *;
    BehaviourKeepsInv(c, ws, es, n);
    var w, spec := ws[n], c.jobs[job].steps[i];
    var s, d := w.status.jobs.value[job].steps[i], DerivedJob(c, w, job);
    ActionStepDerived(c, w, job, i);
    var ctx := ResolveContext(None, StepContext(d.steps[..i]), JobContext(w.status.jobs.value));
    DecidedCall(c, job, i, s, w.runs, ctx);
    InnerKept(c, job, spec, ProjectedStep(c, job, s, w.runs), ctx);
    SameLength(c, job, i, s, w.runs);
    T.StepNamed(c, job, spec, s, w.runs);
    forall a | 0 <= a < |d.steps[i].actionSteps|
      ensures var key := InnerKey(job, spec.name, c.actions[ActionKey(job, spec.name)], a);
              && (d.steps[i].actionSteps[a].phase.StepSucceeded? <==> L.Done(c, w.runs, key))
              && (d.steps[i].actionSteps[a].phase.StepSucceeded? ==>
                    key in w.runs && d.steps[i].actionSteps[a].outputs == w.runs[key].outputs)
    {
      InnerProjected(c, job, i, s, w.runs, a);
      DoneIsThere(c, w.runs, InnerKey(job, spec.name, c.actions[ActionKey(job, spec.name)], a));
    }
  }

  lemma DoneIsThere(c: Config, runs: map<StepKey, Run>, k: StepKey)
    ensures L.Done(c, runs, k) ==> k in runs
  {
  }

  lemma InnerKept(c: Config, job: string, spec: StepSpec, s: StepStatus, ctx: ResolveContext)
    ensures DeriveActionCall(c, job, spec, s, ctx).actionSteps == s.actionSteps
  {
    hide ResolveActionOutputs;
  }

  // ---- the WorkflowRun ------------------------------------------------------

  /** Every job has succeeded by now: so has the WorkflowRun. */
  lemma AllJobsSucceeded(c: Config, w: World)
    requires Inv(c, w) && w.status.jobs.Some? && !w.cancelRequested && c.jobs.Keys != {}
    requires forall job :: job in c.jobs ==> job in w.status.jobs.value && DerivedJob(c, w, job).phase.JobSucceeded?
    ensures Derive(c, w).phase.WorkflowSucceeded?
  {
    hide *;
    DerivedStatus(c, w);
    forall job | job in c.jobs ensures Derive(c, w).jobs.value[job].phase.JobSucceeded? {
      DerivedJobIs(c, w, job);
    }
    AllSucceededEnds(Derive(c, w).jobs.value, w.status.phase);
  }

  lemma DerivedJobIs(c: Config, w: World, job: string)
    requires w.status.jobs.Some? && job in w.status.jobs.value
    requires Derive(c, w).jobs.Some? && job in Derive(c, w).jobs.value
    ensures DerivedJob(c, w, job) == Derive(c, w).jobs.value[job]
  {
  }

  lemma AllSucceededEnds(jobs: JobStatuses, phase: WorkflowPhase)
    requires jobs.Keys != {} && forall job :: job in jobs.Keys ==> jobs[job].phase.JobSucceeded?
    ensures TerminalWorkflowPhase(phase, jobs).WorkflowSucceeded?
  {
    var some :| some in jobs.Keys;
    assert some in jobs;
  }

  lemma DerivedStatus(c: Config, w: World)
    requires Inv(c, w) && w.status.jobs.Some? && !w.cancelRequested
    ensures Derive(c, w).jobs.Some? && Derive(c, w).jobs.value.Keys == c.jobs.Keys
    ensures Derive(c, w).phase == TerminalWorkflowPhase(w.status.phase, Derive(c, w).jobs.value)
  {
    hide JobsDerived, Acceptable, SkipPropagation.Skipped, TerminalWorkflowPhase;
    DerivedKeys(c, w.status.jobs.value, w.runs, w.calls);
    SkippedKeys(JobsDerived(c, w.status.jobs.value, w.runs, w.calls));
  }

  /** The expressions of the job resolve as they come up: those of its Action calls and its outputs. */
  ghost predicate JobResolves(c: Config, w: World, job: string)
    requires w.status.jobs.Some? && job in w.status.jobs.value && job in c.jobs
  {
    if c.jobs[job].uses != "" then c.callName(job) in w.calls && w.calls[c.callName(job)].outputs.Some?
    else
      && Resolves(c, c.jobs[job].outputs, JobOutputContext(DerivedJob(c, w, job).steps))
      && forall i :: 0 <= i < |c.jobs[job].steps| && c.jobs[job].steps[i].uses != "" ==> CallResolves(c, w, job, i)
  }

  ghost predicate CallResolves(c: Config, w: World, job: string, i: nat)
    requires w.status.jobs.Some? && job in w.status.jobs.value && job in c.jobs && i < |c.jobs[job].steps|
  {
    var d, spec := DerivedJob(c, w, job), c.jobs[job].steps[i];
    && i < |d.steps| && i < |w.status.jobs.value[job].steps| && ActionKey(job, spec.name) in c.actions
    && (w.status.jobs.value[job].steps[i].phase.StepSucceeded?
        || (!w.status.jobs.value[job].steps[i].phase.StepFailed?
            && ActionResolves(c, c.actions[ActionKey(job, spec.name)], d.steps[i].actionSteps, spec.inputs,
                              ResolveContext(None, StepContext(d.steps[..i]), JobContext(w.status.jobs.value)))))
  }

  lemma DoneStepSucceeds(c: Config, ws: seq<World>, es: seq<Event>, n: nat, job: string, i: nat)
    requires NamesDistinct(c) && Behaviour(c, ws, es) && n < |ws| && ws[n].status.jobs.Some?
    requires job in c.jobs && job in ws[n].status.jobs.value && c.jobs[job].uses == ""
    requires i < |ws[n].status.jobs.value[job].steps| && i < |c.jobs[job].steps|
    requires L.JobDone(c, job, ws[n].runs, ws[n].calls)
    requires c.jobs[job].steps[i].uses != "" ==> CallResolves(c, ws[n], job, i)
    ensures i < |DerivedJob(c, ws[n], job).steps| && DerivedJob(c, ws[n], job).steps[i].phase.StepSucceeded?
  {
    hide Behaviour, Inv, StepOk, Derive, ActionResolves, DerivedJob, L.Done;
    var spec := c.jobs[job].steps[i];
    if spec.uses == "" {
      InlineStepOutcome(c, ws, es, n, job, i);
      assert KeyAt(c, StepKey(job, spec.name, ""), spec);
      assert KeyKnown(c, StepKey(job, spec.name, ""));
    } else {
      DoneCallSucceeds(c, ws, es, n, job, i);
    }
  }

  lemma DoneCallSucceeds(c: Config, ws: seq<World>, es: seq<Event>, n: nat, job: string, i: nat)
    requires NamesDistinct(c) && Behaviour(c, ws, es) && n < |ws| && ws[n].status.jobs.Some?
    requires job in c.jobs && job in ws[n].status.jobs.value && c.jobs[job].uses == ""
    requires i < |ws[n].status.jobs.value[job].steps| && i < |c.jobs[job].steps| && c.jobs[job].steps[i].uses != ""
    requires L.JobDone(c, job, ws[n].runs, ws[n].calls) && CallResolves(c, ws[n], job, i)
    ensures i < |DerivedJob(c, ws[n], job).steps| && DerivedJob(c, ws[n], job).steps[i].phase.StepSucceeded?
  {
    hide Behaviour, Inv, StepOk, Derive, ActionResolves, DerivedJob, L.Done;
    var spec := c.jobs[job].steps[i];
    ActionCallOutcome(c, ws, es, n, job, i);
    BehaviourKeepsInv(c, ws, es, n);
    ActionStepDerived(c, ws[n], job, i);
    T.StepNamed(c, job, spec, ws[n].status.jobs.value[job].steps[i], ws[n].runs);
    var action := c.actions[ActionKey(job, spec.name)];
    forall a | 0 <= a < |action.steps| ensures L.Done(c, ws[n].runs, InnerKey(job, spec.name, action, a)) {
      assert KeyAt(c, InnerKey(job, spec.name, action, a), spec);
      assert KeyKnown(c, InnerKey(job, spec.name, action, a));
    }
  }

  /** A job whose children all exist has been started. */
  lemma DoneIsStarted(c: Config, w: World, job: string)
    requires NamesDistinct(c) && Inv(c, w) && w.status.jobs.Some? && job in c.jobs
    requires L.JobDone(c, job, w.runs, w.calls)
    ensures job in w.status.jobs.value
    ensures !w.status.jobs.value[job].phase.Unstarted() && !w.status.jobs.value[job].phase.JobSkipped?
  {
    hide *;
    JobIsSound(c, w, job);
    if c.jobs[job].uses == "" {
      FirstStepStarted(c, w, job);
    } else {
      CalledStarted(c, w, job);
    }
  }

  lemma JobIsSound(c: Config, w: World, job: string)
    requires Inv(c, w) && w.status.jobs.Some? && job in c.jobs
    ensures job in w.status.jobs.value && JobOk(c, job, w.status.jobs.value, w.runs, w.calls)
    ensures JobWellFormed(c.jobs[job]) && ActionsResolved(c, job)
  {
    hide JobOk, JobWellFormed, ActionsResolved, PhaseOk, RunsKnown, CallsKnown;
  }

  lemma CalledStarted(c: Config, w: World, job: string)
    requires w.status.jobs.Some? && job in c.jobs && job in w.status.jobs.value
    requires JobOk(c, job, w.status.jobs.value, w.runs, w.calls) && JobWellFormed(c.jobs[job])
    requires c.jobs[job].uses != "" && L.JobDone(c, job, w.runs, w.calls)
    ensures !w.status.jobs.value[job].phase.Unstarted() && !w.status.jobs.value[job].phase.JobSkipped?
  {
    hide StepOk, NeedsOk, L.Done;
  }

  lemma FirstStepStarted(c: Config, w: World, job: string)
    requires NamesDistinct(c) && w.status.jobs.Some? && job in c.jobs && job in w.status.jobs.value
    requires JobOk(c, job, w.status.jobs.value, w.runs, w.calls) && JobWellFormed(c.jobs[job])
    requires ActionsResolved(c, job) && c.jobs[job].uses == "" && L.JobDone(c, job, w.runs, w.calls)
    ensures !w.status.jobs.value[job].phase.Unstarted() && !w.status.jobs.value[job].phase.JobSkipped?
  {
    var jobs := w.status.jobs.value;
    var spec, k := c.jobs[job].steps[0], FirstKey(c, job);
    FirstKeyKnown(c, job);
    hide NamesDistinct, NeedsOk, CallOk, StepOk, KeyAt, L.Done;
    DoneIsThere(c, w.runs, k);
    assert StepOk(c, job, spec, jobs[job].steps[0], w.runs);
    FirstIsTouched(c, job, spec, jobs[job].steps[0], w.runs, k);
    hide JobWellFormed, ActionsResolved, L.JobDone;
  }

  lemma FirstKeyKnown(c: Config, job: string)
    requires NamesDistinct(c) && job in c.jobs && c.jobs[job].steps != [] && ActionsResolved(c, job)
    ensures var k := FirstKey(c, job); k.job == job && KeyAt(c, k, c.jobs[job].steps[0]) && KeyKnown(c, k)
  {
    assert KeyAt(c, FirstKey(c, job), c.jobs[job].steps[0]);
  }

  ghost function FirstKey(c: Config, job: string): StepKey
    requires job in c.jobs && c.jobs[job].steps != [] && ActionsResolved(c, job)
  {
    var spec := c.jobs[job].steps[0];
    StepKey(job, spec.name, if spec.uses == "" then "" else c.actions[ActionKey(job, spec.name)].steps[0])
  }

  lemma FirstIsTouched(c: Config, job: string, spec: StepSpec, s: StepStatus, runs: map<StepKey, Run>, k: StepKey)
    requires StepOk(c, job, spec, s, runs) && k in runs && k.job == job && KeyAt(c, k, spec)
    ensures !Untouched(s)
  {
    if spec.uses != "" {
      var names := c.actions[ActionKey(job, spec.name)].steps;
      var a :| 0 <= a < |names| && names[a] == k.action;
      var t := s.actionSteps[a];
      assert SlotOk(c, runs, StepKey(job, s.name, t.name), t.phase, t.runName);
      assert !FreshAction(t);
    }
  }

  lemma DoneJobSucceeds(c: Config, ws: seq<World>, es: seq<Event>, n: nat, job: string)
    requires NamesDistinct(c) && Behaviour(c, ws, es) && n < |ws| && ws[n].status.jobs.Some? && job in c.jobs
    requires L.JobDone(c, job, ws[n].runs, ws[n].calls)
    requires job in ws[n].status.jobs.value && !ws[n].status.jobs.value[job].phase.JobFailed?
    requires JobResolves(c, ws[n], job)
    ensures DerivedJob(c, ws[n], job).phase.JobSucceeded?
  {
    hide Behaviour, Inv, NamesDistinct, Derive, DerivedJob;
    BehaviourKeepsInv(c, ws, es, n);
    DoneIsStarted(c, ws[n], job);
    if ws[n].status.jobs.value[job].phase.JobSucceeded? {
      SucceededJobKept(c, ws[n], job);
    } else if c.jobs[job].uses != "" {
      CallOutcome(c, ws, es, n, job);
    } else {
      hide L.JobDone, JobResolves;
      DoneStepsSucceed(c, ws, es, n, job);
    }
  }

  lemma SucceededJobKept(c: Config, w: World, job: string)
    requires NamesDistinct(c) && Inv(c, w) && w.status.jobs.Some? && job in c.jobs && job in w.status.jobs.value
    requires w.status.jobs.value[job].phase.JobSucceeded?
    ensures DerivedJob(c, w, job).phase.JobSucceeded?
  {
    hide Inv, NamesDistinct, Derive;
    StartedJobDerived(c, w, job);
  }

  lemma DoneStepsSucceed(c: Config, ws: seq<World>, es: seq<Event>, n: nat, job: string)
    requires NamesDistinct(c) && Behaviour(c, ws, es) && n < |ws| && Inv(c, ws[n]) && ws[n].status.jobs.Some?
    requires job in c.jobs && c.jobs[job].uses == "" && L.JobDone(c, job, ws[n].runs, ws[n].calls)
    requires job in ws[n].status.jobs.value && ws[n].status.jobs.value[job].phase.JobRunning?
    requires JobResolves(c, ws[n], job)
    ensures DerivedJob(c, ws[n], job).phase.JobSucceeded?
  {
    var w := ws[n];
    StepsExist(c, w, job);
    StepsDerived(c, w, job);
    JobOutcome(c, ws, es, n, job);
    var d := DerivedJob(c, w, job);
    hide Behaviour, Inv, NamesDistinct, Derive, DerivedJob, ActionsDone, ProjectedSteps, CallResolves, Resolves;
    forall i | 0 <= i < |d.steps| ensures d.steps[i].phase.StepSucceeded? {
      DoneStepSucceeds(c, ws, es, n, job, i);
    }
  }

  /** A derived success is what the reconcile leaves. */
  lemma SucceededIsKept(c: Config, ws: seq<World>, es: seq<Event>, n: nat)
    requires Behaviour(c, ws, es) && n < |es| && es[n].Reconciled? && !ws[n].cancelRequested
    requires Derive(c, ws[n]).phase.WorkflowSucceeded?
    ensures ws[n + 1].status == Derive(c, ws[n])
  {
    hide Derive;
  }

  /**
    * When every child of every job has succeeded and every expression resolves, the WorkflowRun succeeds
    * with its next reconcile.
    */
  lemma SucceedsWithItsChildren(c: Config, ws: seq<World>, es: seq<Event>, n: nat)
    requires NamesDistinct(c) && Behaviour(c, ws, es) && n < |ws| && ws[n].status.jobs.Some? && c.jobs.Keys != {}
    requires !ws[n].cancelRequested
    requires forall job :: job in c.jobs ==> job in ws[n].status.jobs.value
    requires forall job :: job in c.jobs ==> L.JobDone(c, job, ws[n].runs, ws[n].calls) && JobResolves(c, ws[n], job)
    requires forall job :: job in c.jobs ==> !ws[n].status.jobs.value[job].phase.JobFailed?
    ensures Derive(c, ws[n]).phase.WorkflowSucceeded?
    ensures n < |es| && es[n].Reconciled? ==> ws[n + 1].status == Derive(c, ws[n])
  {
    hide *;
    BehaviourKeepsInv(c, ws, es, n);
    forall job | job in c.jobs ensures DerivedJob(c, ws[n], job).phase.JobSucceeded? {
      DoneJobSucceeds(c, ws, es, n, job);
    }
    AllJobsSucceeded(c, ws[n]);
    if n < |es| && es[n].Reconciled? {
      SucceededIsKept(c, ws, es, n);
    }
  }
}
