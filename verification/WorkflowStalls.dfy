/** Once a lost status patch has stalled a job, nothing but cancellation ends its WorkflowRun. */
module WorkflowStalls {
  import opened Common
  import opened WorkflowStatus
  import opened WorkflowDerive
  import opened WorkflowPlan
  import opened WorkflowInvariant
  import opened WorkflowStart
  import opened WorkflowLossy
  import M = WorkflowMachine
  import SkipPropagation

  /** The steps decide the job: all succeeded, or the first that did not has failed and cannot recover. */
  ghost predicate Over(c: Config, job: string, steps: seq<StepStatus>, runs: map<StepKey, Run>)
    requires job in c.jobs
  {
    && |steps| == |c.jobs[job].steps|
    && var i := FirstUnsucceeded(steps);
       i == |steps| || FailedForGood(c, job, c.jobs[job].steps[i], steps[i], runs)
  }

  ghost predicate FailedForGood(c: Config, job: string, spec: StepSpec, s: StepStatus, runs: map<StepKey, Run>) {
    && s.phase.StepFailed?
    && (spec.uses == "" ==> Finished(runs, StepKey(job, s.name, "")) && !Good(c, runs[StepKey(job, s.name, "")]))
  }

  /** The job never was recorded as started, though it could be, and its steps are over. */
  ghost predicate StuckIn(c: Config, jobs: JobStatuses, runs: map<StepKey, Run>, job: string) {
    && job in c.jobs && job in jobs && c.jobs[job].uses == ""
    && JobReadyToStart(jobs[job], jobs) && Over(c, job, jobs[job].steps, runs)
  }

  ghost predicate Stuck(c: Config, w: World, job: string) {
    w.status.jobs.Some? && StuckIn(c, w.status.jobs.value, w.runs, job)
  }

  // ---- derivation leaves it alone -------------------------------------------

  lemma SucceededStays(c: Config, job: string, i: nat, s: StepStatus, runs: map<StepKey, Run>)
    requires NamesDistinct(c) && RunsKnown(c, runs) && job in c.jobs && i < |c.jobs[job].steps|
    requires StepSound(c, job, c.jobs[job].steps[i], s, runs) && s.phase.StepSucceeded?
    ensures ProjectedStep(c, job, s, runs).phase.StepSucceeded?
  {
    if c.jobs[job].steps[i].uses == "" {
      NoActionRuns(c, job, i, runs);
    } else {
      NoInlineRun(c, job, i, runs);
      forall k | Finished(runs, k) && k.job == job && k.step == s.name && k.action != ""
        ensures c.environmentOk(runs[k].outputs)
      {
        KeyAtItsStep(c, job, i, runs, k);
        SucceededStepIsDone(c, job, c.jobs[job].steps[i], s, runs, k);
      }
    }
  }

  lemma FailedStays(c: Config, job: string, i: nat, s: StepStatus, runs: map<StepKey, Run>)
    requires NamesDistinct(c) && RunsKnown(c, runs) && job in c.jobs && i < |c.jobs[job].steps|
    requires s.name == c.jobs[job].steps[i].name && FailedForGood(c, job, c.jobs[job].steps[i], s, runs)
    ensures FailedForGood(c, job, c.jobs[job].steps[i], ProjectedStep(c, job, s, runs), runs)
  {
    if c.jobs[job].steps[i].uses != "" {
      NoInlineRun(c, job, i, runs);
    }
  }

  lemma FirstIs(steps: seq<StepStatus>, i: nat)
    requires i <= |steps| && (forall j :: 0 <= j < i ==> steps[j].phase.StepSucceeded?)
    requires i < |steps| ==> !steps[i].phase.StepSucceeded?
    ensures FirstUnsucceeded(steps) == i
  {
    var f := FirstUnsucceeded(steps);
    assert !(f < i) && !(i < f);
  }

  lemma ProjectedOver(c: Config, job: string, steps: seq<StepStatus>, runs: map<StepKey, Run>)
    requires NamesDistinct(c) && RunsKnown(c, runs) && job in c.jobs && StepsSound(c, job, steps, runs)
    requires Over(c, job, steps, runs)
    ensures Over(c, job, ProjectedSteps(c, job, steps, runs), runs)
  {
    hide RunsKnown, ProjectedStep, StepSound, FailedForGood;
    var i, r := FirstUnsucceeded(steps), ProjectedSteps(c, job, steps, runs);
    forall j | 0 <= j < |steps| ensures r[j] == ProjectedStep(c, job, steps[j], runs) || r[j] == steps[j] {
    }
    forall j | 0 <= j < i ensures r[j].phase.StepSucceeded? {
      assert StepSound(c, job, c.jobs[job].steps[j], steps[j], runs);
      SucceededStays(c, job, j, steps[j], runs);
    }
    if i < |steps| {
      StepSoundNamed(c, job, c.jobs[job].steps[i], steps[i], runs);
      FailedStays(c, job, i, steps[i], runs);
      FailedFailed(c, job, c.jobs[job].steps[i], r[i], runs);
    }
    FirstIs(r, i);
  }

  lemma StepSoundNamed(c: Config, job: string, spec: StepSpec, s: StepStatus, runs: map<StepKey, Run>)
    requires StepSound(c, job, spec, s, runs)
    ensures s.name == spec.name
  {
  }

  lemma FailedFailed(c: Config, job: string, spec: StepSpec, s: StepStatus, runs: map<StepKey, Run>)
    requires FailedForGood(c, job, spec, s, runs)
    ensures s.phase.StepFailed?
  {
  }

  lemma {:induction false} ActionsDoneOver(
      c: Config, job: string, steps: seq<StepStatus>, runs: map<StepKey, Run>, ctx: map<string, Outputs>, n: nat)
    requires job in c.jobs && n <= |c.jobs[job].steps| == |steps|
    ensures var r := ActionsDone(c, job, c.jobs[job].steps, steps, ctx, n);
            forall j :: 0 <= j < |steps| && steps[j].phase.Terminal() ==> r[j] == steps[j]
  {
    hide DeriveActionCall, StepContext;
    if n > 0 {
      ActionsDoneOver(c, job, steps, runs, ctx, n - 1);
      var before := ActionsDone(c, job, c.jobs[job].steps, steps, ctx, n - 1);
      EndedCallKept(c, job, c.jobs[job].steps[n - 1], before[n - 1], ResolveContext(None, StepContext(before), ctx));
    }
  }

  lemma EndedCallKept(c: Config, job: string, spec: StepSpec, s: StepStatus, ctx: ResolveContext)
    ensures s.phase.Terminal() ==> DeriveActionCall(c, job, spec, s, ctx) == s
  {
    hide ResolveActionOutputs;
  }

  lemma OverKept(c: Config, job: string, steps: seq<StepStatus>, after: seq<StepStatus>, runs: map<StepKey, Run>)
    requires job in c.jobs && Over(c, job, steps, runs) && |after| == |steps|
    requires forall j :: 0 <= j < |steps| && steps[j].phase.Terminal() ==> after[j] == steps[j]
    ensures Over(c, job, after, runs)
  {
    FirstIs(after, FirstUnsucceeded(steps));
  }

  lemma DerivedOver(
      c: Config, jobs: JobStatuses, runs: map<StepKey, Run>, calls: map<string, ChildWorkflow>, job: string)
    requires NamesDistinct(c) && RunsKnown(c, runs) && JobsSound(c, jobs, runs, calls) && job in c.jobs
    requires jobs[job].phase.Unstarted() && Over(c, job, jobs[job].steps, runs)
    ensures var r := JobsDerived(c, jobs, runs, calls);
            job in r && r[job] == jobs[job].(steps := r[job].steps) && Over(c, job, r[job].steps, runs)
  {
    hide NamesDistinct, RunsKnown, ProjectedSteps, ActionsDone, Over, StepsSound;
    assert JobSound(c, job, jobs[job], runs, calls);
    var projected := Projected(c, jobs, runs);
    ProjectedOver(c, job, jobs[job].steps, runs);
    OverLength(c, job, projected[job].steps, runs);
    ActionsDoneOver(c, job, projected[job].steps, runs, JobContext(projected), |c.jobs[job].steps|);
    OverKept(c, job, projected[job].steps,
             ActionsDone(c, job, c.jobs[job].steps, projected[job].steps, JobContext(projected), |c.jobs[job].steps|),
             runs);
  }

  lemma OverLength(c: Config, job: string, steps: seq<StepStatus>, runs: map<StepKey, Run>)
    requires job in c.jobs && Over(c, job, steps, runs)
    ensures |steps| == |c.jobs[job].steps|
  {
  }

  lemma DerivedSucceeded(
      c: Config, jobs: JobStatuses, runs: map<StepKey, Run>, calls: map<string, ChildWorkflow>, d: string)
    requires d in jobs && jobs[d].phase.JobSucceeded?
    ensures d in JobsDerived(c, jobs, runs, calls) && JobsDerived(c, jobs, runs, calls)[d].phase.JobSucceeded?
  {
    hide ProjectedSteps, ActionsDone;
  }

  lemma DerivedStuck(
      c: Config, jobs: JobStatuses, runs: map<StepKey, Run>, calls: map<string, ChildWorkflow>, job: string)
    requires NamesDistinct(c) && RunsKnown(c, runs) && JobsSound(c, jobs, runs, calls) && StuckIn(c, jobs, runs, job)
    ensures StuckIn(c, JobsDerived(c, jobs, runs, calls), runs, job)
  {
    hide NamesDistinct, RunsKnown, JobsSound, JobsDerived, Over;
    DerivedOver(c, jobs, runs, calls, job);
    forall d | d in jobs && jobs[d].phase.JobSucceeded?
      ensures d in JobsDerived(c, jobs, runs, calls) && JobsDerived(c, jobs, runs, calls)[d].phase.JobSucceeded?
    {
      DerivedSucceeded(c, jobs, runs, calls, d);
    }
  }

  lemma SkippedStuck(c: Config, jobs: JobStatuses, runs: map<StepKey, Run>, job: string)
    requires StuckIn(c, jobs, runs, job)
    ensures StuckIn(c, SkipPropagation.Skipped(jobs), runs, job)
  {
    hide SkipPropagation.Blocked, Over;
    SkipPropagation.BlockedStep(jobs, job);
    forall d | d in jobs && jobs[d].phase.JobSucceeded? ensures SkipPropagation.Skipped(jobs)[d] == jobs[d] {
      SkipPropagation.BlockedStep(jobs, d);
    }
  }

  lemma StuckIsOpen(c: Config, jobs: JobStatuses, runs: map<StepKey, Run>, job: string, phase: WorkflowPhase)
    requires StuckIn(c, jobs, runs, job)
    ensures TerminalWorkflowPhase(phase, jobs) == phase
  {
  }

  lemma DeriveStuck(c: Config, w: World, job: string)
    requires NamesDistinct(c) && Inv(c, w) && Stuck(c, w, job)
    ensures Stuck(c, w.(status := Derive(c, w)), job)
    ensures Derive(c, w).phase == w.status.phase || Derive(c, w).phase.WorkflowCancelled?
  {
    RunsInOrderKnown(c, w.runs, w.calls);
    hide NamesDistinct, RunsKnown, AllInOrder, JobsSound, JobsDerived, StuckIn, SkipPropagation.Skipped, Acceptable,
         TerminalWorkflowPhase;
    var r := JobsDerived(c, w.status.jobs.value, w.runs, w.calls);
    DerivedStuck(c, w.status.jobs.value, w.runs, w.calls, job);
    SkippedStuck(c, r, w.runs, job);
    StuckIsOpen(c, SkipPropagation.Skipped(r), w.runs, job, w.status.phase);
  }

  // ---- and so does starting other jobs --------------------------------------

  lemma NotATarget(c: Config, jobs: JobStatuses, runs: map<StepKey, Run>, job: string, t: Target)
    requires StuckIn(c, jobs, runs, job) && Ready(c, jobs, t)
    ensures t.job != job && !(t.job in jobs && jobs[t.job].phase.JobSucceeded?)
  {
  }

  ghost predicate FinishedKept(w: World, after: World) {
    forall k :: Finished(w.runs, k) ==> Finished(after.runs, k) && after.runs[k] == w.runs[k]
  }

  /** Starting a target changes the status of its own job only. */
  lemma StartOneFrame(c: Config, w: World, t: Target, rejected: set<string>)
    requires Startable(c, w, t)
    ensures var after := StartOne(c, w, t, rejected);
            && after.status.jobs.Some? && after.status.phase.WorkflowRunning? && FinishedKept(w, after)
            && (forall job :: job in w.status.jobs.value && job != t.job ==>
                  job in after.status.jobs.value && after.status.jobs.value[job] == w.status.jobs.value[job])
  {
    hide RecordStepRun, RecordStepFailure, TargetKey;
  }

  ghost predicate NoTarget(targets: seq<Target>, job: string) {
    forall i :: 0 <= i < |targets| ==> targets[i].job != job
  }

  lemma {:induction false} StartAllFrame(c: Config, w: World, targets: seq<Target>, rejected: set<string>)
    requires w.status.jobs.Some?
    ensures var after := StartAll(c, w, targets, rejected);
            && after.status.jobs.Some? && FinishedKept(w, after)
            && (after.status.phase == w.status.phase || after.status.phase.WorkflowRunning?)
            && forall job :: job in w.status.jobs.value && NoTarget(targets, job) ==>
                 job in after.status.jobs.value && after.status.jobs.value[job] == w.status.jobs.value[job]
    decreases |targets|
  {
    hide StartOne;
    if targets != [] && Startable(c, w, targets[0]) {
      StartOneFrame(c, w, targets[0], rejected);
      StartAllFrame(c, StartOne(c, w, targets[0], rejected), targets[1..], rejected);
    }
  }

  lemma OverStays(c: Config, job: string, steps: seq<StepStatus>, w: World, after: World)
    requires job in c.jobs && Over(c, job, steps, w.runs) && FinishedKept(w, after)
    ensures Over(c, job, steps, after.runs)
  {
  }

  /** The job and the jobs it needs keep their status, and what has finished stays so. */
  lemma StuckKept(c: Config, w: World, after: World, job: string)
    requires Stuck(c, w, job) && after.status.jobs.Some? && FinishedKept(w, after)
    requires forall d :: d in w.status.jobs.value && (d == job || w.status.jobs.value[d].phase.JobSucceeded?) ==>
               d in after.status.jobs.value && after.status.jobs.value[d] == w.status.jobs.value[d]
    ensures Stuck(c, after, job)
  {
    hide Over;
    OverStays(c, job, w.status.jobs.value[job].steps, w, after);
  }

  lemma StartStuck(c: Config, w: World, names: seq<string>, targets: seq<Target>, rejected: set<string>, job: string)
    requires Stuck(c, w, job) && Enumerates(names, c.jobs.Keys) && targets <= Targets(c, w.status.jobs.value, names)
    ensures var after := StartAll(c, w, targets, rejected);
            && Stuck(c, after, job) && FinishedKept(w, after)
            && (after.status.phase == w.status.phase || after.status.phase.WorkflowRunning?)
  {
    hide StuckIn, Targets, StartAll, Ready, FinishedKept;
    var jobs := w.status.jobs.value;
    TargetsReady(c, jobs, names);
    StartAllFrame(c, w, targets, rejected);
    forall i | 0 <= i < |targets|
      ensures targets[i].job != job && !(targets[i].job in jobs && jobs[targets[i].job].phase.JobSucceeded?)
    {
      assert Ready(c, jobs, Targets(c, jobs, names)[i]);
      NotATarget(c, jobs, w.runs, job, targets[i]);
    }
    StuckKept(c, w, StartAll(c, w, targets, rejected), job);
  }

  // ---- for ever -------------------------------------------------------------

  ghost predicate StuckOrCancelled(c: Config, w: World, job: string) {
    Stuck(c, w, job) && (w.status.phase.Terminal() ==> w.status.phase.WorkflowCancelled?)
  }

  lemma CancelStuck(c: Config, w: World, job: string)
    requires StuckOrCancelled(c, w, job)
    ensures StuckOrCancelled(c, CancelChildren(w), job) && FinishedKept(w, CancelChildren(w))
  {
    hide StuckIn;
    StuckKept(c, w, CancelChildren(w), job);
  }

  lemma DerivedStuckOrCancelled(c: Config, w: World, job: string)
    requires NamesDistinct(c) && Inv(c, w) && StuckOrCancelled(c, w, job)
    ensures w.status.jobs.Some? && Derive(c, w).jobs.Some?
    ensures StuckOrCancelled(c, w.(status := Derive(c, w)), job)
  {
    hide NamesDistinct, Inv, StuckIn, Derive;
    DeriveStuck(c, w, job);
  }

  lemma StartedStuckOrCancelled(
      c: Config, w: World, names: seq<string>, targets: seq<Target>, rejected: set<string>, job: string)
    requires StuckOrCancelled(c, w, job) && w.status.jobs.Some? && Enumerates(names, c.jobs.Keys)
    requires targets <= Targets(c, w.status.jobs.value, names)
    ensures var after := StartAll(c, w, targets, rejected);
            StuckOrCancelled(c, after, job) && FinishedKept(w, after)
  {
    hide StuckIn, FinishedKept, Targets, StartAll, Enumerates;
    StartStuck(c, w, names, targets, rejected, job);
  }

  lemma ReconcileStuck(
      c: Config, w: World, names: seq<string>, rejected: set<string>, accept: bool, job: string)
    requires NamesDistinct(c) && Inv(c, w) && Enumerates(names, c.jobs.Keys) && StuckOrCancelled(c, w, job)
    ensures StuckOrCancelled(c, Reconcile(c, w, names, rejected, accept), job)
  {
    hide NamesDistinct, Inv, Derive, StuckOrCancelled, PlanFor, Targets, StartAll, CancelChildren, Acceptable,
         Enumerates;
    DerivedStuckOrCancelled(c, w, job);
    var d := w.(status := Derive(c, w));
    PlanMeans(c, d, names);
    match PlanFor(c, d, names)
    case Start(targets) => StartedStuckOrCancelled(c, d, names, targets, rejected, job);
    case RequestChildCancellation => CancelStuck(c, d, job);
    case _ =>
  }

  lemma LostStuck(c: Config, w: World, names: seq<string>, rejected: set<string>, served: nat, job: string)
    requires NamesDistinct(c) && Inv(c, w) && Enumerates(names, c.jobs.Keys) && StuckOrCancelled(c, w, job)
    ensures StuckOrCancelled(c, LostReconcile(c, w, names, rejected, served), job)
  {
    hide NamesDistinct, Inv, Derive, StuckOrCancelled, PlanFor, Targets, StartAll, CancelChildren, Enumerates,
         FinishedKept;
    DerivedStuckOrCancelled(c, w, job);
    var d := w.(status := Derive(c, w));
    PlanMeans(c, d, names);
    match PlanFor(c, d, names)
    case Start(targets) =>
      var started := if served < |targets| then targets[..served] else targets;
      StartedStuckOrCancelled(c, d, names, started, rejected, job);
      StuckWith(c, w, d, StartAll(c, d, started, rejected), job);
    case RequestChildCancellation =>
      CancelStuck(c, w, job);
      StuckWith(c, w, w, CancelChildren(w), job);
    case _ =>
  }

  lemma StuckWith(c: Config, w: World, d: World, after: World, job: string)
    requires StuckOrCancelled(c, w, job) && d.runs == w.runs && FinishedKept(d, after)
    ensures StuckOrCancelled(c, w.(runs := after.runs, calls := after.calls), job)
  {
    hide StuckIn;
    StuckKept(c, w, w.(runs := after.runs, calls := after.calls), job);
  }

  lemma StepStuck(c: Config, w: World, e: Event, job: string)
    requires NamesDistinct(c) && Inv(c, w) && Enabled(c, w, e) && StuckOrCancelled(c, w, job)
    ensures StuckOrCancelled(c, Step(c, w, e), job)
  {
    hide NamesDistinct, Inv, StuckIn, Reconcile, LostReconcile;
    match e
    case Lost(names, rejected, served) => LostStuck(c, w, names, rejected, served, job);
    case Landed(step) =>
      if step.Reconciled? {
        ReconcileStuck(c, w, step.names, step.rejected, step.accept, job);
      } else {
        StuckKept(c, w, Step(c, w, e), job);
      }
  }

  /**
    * A job that was never recorded as started and whose steps are over stays so in every continuation,
    * patches lost or not: it is neither closed nor planned, and its WorkflowRun ends only by cancellation.
    */
  lemma {:induction false} UnrecordedStallsForever(
      c: Config, ws: seq<World>, es: seq<Event>, i: nat, j: nat, job: string)
    requires NamesDistinct(c) && Behaviour(c, ws, es) && i <= j < |ws|
    requires Stuck(c, ws[i], job) && !ws[i].status.phase.Terminal()
    ensures StuckOrCancelled(c, ws[j], job)
  {
    hide NamesDistinct, Enabled, Step, Stuck, Inv;
    if i < j {
      UnrecordedStallsForever(c, ws, es, i, j - 1, job);
      BehaviourKeepsInv(c, ws, es, j - 1);
      assert Enabled(c, ws[j - 1], es[j - 1]) && ws[j - 1 + 1] == Step(c, ws[j - 1], es[j - 1]);
      StepStuck(c, ws[j - 1], es[j - 1], job);
    }
  }

  /** Such a job has no target, and no reconcile closes it. */
  lemma StuckIsNeverPlanned(c: Config, w: World, job: string)
    requires Stuck(c, w, job)
    ensures StepTargetFor(c, w.status.jobs.value, job) == None
    ensures JobClosed(c, job, w.status.jobs.value[job]) == w.status.jobs.value[job]
  {
  }
}
