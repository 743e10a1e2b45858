/** The WorkflowRun protocol: reconciles interleaved with child progress and cancellation. */
module WorkflowMachine {
  import opened Common
  import opened WorkflowStatus
  import opened WorkflowDerive
  import opened WorkflowPlan
  import opened WorkflowInvariant
  import opened WorkflowStart
  import JobGraph
  import SkipPropagation

  datatype Event =
    | Reconciled(names: seq<string>, rejected: set<string>, accept: bool)
    | RunMoved(key: StepKey, run: Run)
    | CallMoved(name: string, child: ChildWorkflow)
    | CancelRequested

  ghost predicate Enabled(c: Config, w: World, e: Event) {
    match e
    case Reconciled(names, _, _) => Enumerates(names, c.jobs.Keys)
    case RunMoved(key, run) => key in w.runs && !w.runs[key].phase.Terminal() && run.name == w.runs[key].name
    case CallMoved(name, _) => name in w.calls && !w.calls[name].phase.Terminal()
    case CancelRequested => true
  }

  ghost function Step(c: Config, w: World, e: Event): World
    requires Enabled(c, w, e)
  {
    match e
    case Reconciled(names, rejected, accept) => Reconcile(c, w, names, rejected, accept)
    case RunMoved(key, run) => w.(runs := w.runs[key := run])
    case CallMoved(name, child) => w.(calls := w.calls[name := child])
    case CancelRequested => w.(cancelRequested := true)
  }

  ghost predicate Initial(w: World) {
    && (w.status.phase.WorkflowUnset? || w.status.phase.WorkflowPending?)
    && w.status.jobs.None? && w.runs == map[] && w.calls == map[]
  }

  /** One run of the protocol: the worlds passed through. */
  ghost predicate Behaviour(c: Config, ws: seq<World>, es: seq<Event>) {
    && |ws| == |es| + 1 && Initial(ws[0])
    && forall i :: 0 <= i < |es| ==> Enabled(c, ws[i], es[i]) && ws[i + 1] == Step(c, ws[i], es[i])
  }

  // ---- the invariant --------------------------------------------------------

  ghost predicate PhaseOk(w: World, jobs: JobStatuses) {
    && (w.status.phase.WorkflowSucceeded? ==>
          jobs != map[] && forall job :: job in jobs ==> jobs[job].phase.JobSucceeded?)
    && (w.status.phase.WorkflowFailed? ==>
          && (forall job :: job in jobs ==> jobs[job].phase.Terminal())
          && exists job :: job in jobs && jobs[job].phase.JobFailed?)
    && (w.status.phase.WorkflowCancelled? ==> w.cancelRequested && Quiet(w.runs, w.calls))
  }

  ghost predicate Inv(c: Config, w: World) {
    match w.status.jobs
    case None =>
      && w.runs == map[] && w.calls == map[]
      && !w.status.phase.WorkflowSucceeded?
      && (w.status.phase.WorkflowCancelled? ==> w.cancelRequested)
    case Some(jobs) => Acceptable(c) && JobsOk(c, jobs, w.runs, w.calls) && PhaseOk(w, jobs)
  }

  // ---- derivation keeps it --------------------------------------------------

  ghost predicate JobCurrent(
      c: Config, job: string, status: JobStatus, runs: map<StepKey, Run>, calls: map<string, ChildWorkflow>)
    requires job in c.jobs
  {
    && |status.steps| == |c.jobs[job].steps|
    && StepsCurrent(c, job, status.steps, runs)
    && CallsOpen(c, job, status.steps, |status.steps|)
    && RunningIsOpen(c, job, status, calls)
  }

  ghost predicate AllCurrent(c: Config, jobs: JobStatuses, runs: map<StepKey, Run>, calls: map<string, ChildWorkflow>)
    requires JobsOk(c, jobs, runs, calls)
  {
    forall job :: job in c.jobs ==> JobOk(c, job, jobs, runs, calls) && JobCurrent(c, job, jobs[job], runs, calls)
  }

  lemma OneJobDerived(
      c: Config, job: string, jobs: JobStatuses, runs: map<StepKey, Run>, calls: map<string, ChildWorkflow>)
    requires NamesDistinct(c) && Acceptable(c) && JobsOk(c, jobs, runs, calls) && job in c.jobs
    ensures var r := JobsDerived(c, jobs, runs, calls);
            && job in r && StepsOk(c, job, r[job].steps, runs)
            && r[job].pre == jobs[job].pre
            && Advances(jobs[job].phase, r[job].phase)
            && (r[job].phase.JobSkipped? ==> jobs[job].phase.JobSkipped?)
            && (c.jobs[job].uses == "" ==> PhaseMatchesSteps(r[job].phase, r[job].steps))
            && CallOk(c, job, r[job], calls)
            && JobCurrent(c, job, r[job], runs, calls)
  {
    assert JobOk(c, job, jobs, runs, calls);
    var projected := Projected(c, jobs, runs);
    ProjectedStepsOk(c, job, jobs[job].steps, runs);
    ActionsDoneOk(c, job, projected[job].steps, runs, JobContext(projected), |c.jobs[job].steps|);
    var acted := ActionsDerived(c, projected);
    SettlesTransitive(jobs[job].steps, projected[job].steps, acted[job].steps);
    JobDerivedOk(c, job, jobs[job], acted[job], runs, calls);
  }

  lemma SettlesTransitive(a: seq<StepStatus>, b: seq<StepStatus>, d: seq<StepStatus>)
    requires Settles(a, b) && Settles(b, d)
    ensures Settles(a, d)
  {
    forall i | 0 <= i < |a| && Untouched(a[i]) ensures d[i] == a[i] {
      assert b[i] == a[i];
    }
  }

  lemma JobsDerivedOk(c: Config, jobs: JobStatuses, runs: map<StepKey, Run>, calls: map<string, ChildWorkflow>)
    requires NamesDistinct(c) && Acceptable(c) && JobsOk(c, jobs, runs, calls)
    ensures var r := JobsDerived(c, jobs, runs, calls);
            && JobsOk(c, r, runs, calls) && AllCurrent(c, r, runs, calls)
            && forall job :: job in jobs ==> Advances(jobs[job].phase, r[job].phase)
  {
    hide JobsDerived, StepsOk, PhaseMatchesSteps, CallOk, NeedsOk, JobCurrent, RunsKnown, CallsKnown, Acceptable,
         NamesDistinct;
    var r := JobsDerived(c, jobs, runs, calls);
    assert r.Keys == jobs.Keys by {
      DerivedKeys(c, jobs, runs, calls);
    }
    forall job | job in jobs ensures Advances(jobs[job].phase, r[job].phase) {
      OneJobDerived(c, job, jobs, runs, calls);
    }
    forall job | job in c.jobs ensures JobOk(c, job, r, runs, calls) && JobCurrent(c, job, r[job], runs, calls) {
      OneJobDerived(c, job, jobs, runs, calls);
      assert JobOk(c, job, jobs, runs, calls);
      NeedsKept(c, job, jobs, r);
    }
  }

  lemma DerivedKeys(c: Config, jobs: JobStatuses, runs: map<StepKey, Run>, calls: map<string, ChildWorkflow>)
    ensures JobsDerived(c, jobs, runs, calls).Keys == jobs.Keys
  {
  }

  /** Skipping blocked jobs keeps every job consistent. */
  lemma SkippedOk(c: Config, jobs: JobStatuses, runs: map<StepKey, Run>, calls: map<string, ChildWorkflow>)
    requires JobsOk(c, jobs, runs, calls) && AllCurrent(c, jobs, runs, calls)
    ensures var r := SkipPropagation.Skipped(jobs);
            && JobsOk(c, r, runs, calls) && AllCurrent(c, r, runs, calls)
            && forall job :: job in jobs ==> Advances(jobs[job].phase, r[job].phase)
  {
    hide JobOk, JobCurrent, Advances;
    var r := SkipPropagation.Skipped(jobs);
    SkippedAdvances(jobs);
    hide SkipPropagation.Blocked;
    forall job | job in c.jobs ensures JobOk(c, job, r, runs, calls) && JobCurrent(c, job, r[job], runs, calls) {
      OneJobSkipped(c, job, jobs, runs, calls);
    }
  }

  lemma SkippedAdvances(jobs: JobStatuses)
    ensures forall job :: job in jobs ==> Advances(jobs[job].phase, SkipPropagation.Skipped(jobs)[job].phase)
  {
    forall job | job in jobs ensures Advances(jobs[job].phase, SkipPropagation.Skipped(jobs)[job].phase) {
      SkipPropagation.BlockedStep(jobs, job);
    }
  }

  lemma OneJobSkipped(
      c: Config, job: string, jobs: JobStatuses, runs: map<StepKey, Run>, calls: map<string, ChildWorkflow>)
    requires JobsOk(c, jobs, runs, calls) && AllCurrent(c, jobs, runs, calls) && job in c.jobs
    requires forall d :: d in jobs ==> Advances(jobs[d].phase, SkipPropagation.Skipped(jobs)[d].phase)
    ensures var r := SkipPropagation.Skipped(jobs);
            JobOk(c, job, r, runs, calls) && JobCurrent(c, job, r[job], runs, calls)
  {
    hide StepsOk, NeedsOk, StepsCurrent, CallsOpen, SkipPropagation.Blocked, AllSucceeded, SomeFailed, AllUntouched,
         RunsKnown, CallsKnown;
    var r := SkipPropagation.Skipped(jobs);
    assert JobOk(c, job, jobs, runs, calls) && JobCurrent(c, job, jobs[job], runs, calls);
    SkipPropagation.BlockedStep(jobs, job);
    if SkipPropagation.Blocked(jobs, job) {
      BlockedNeed(c, job, jobs);
    }
    NeedsKept(c, job, jobs, r);
  }

  lemma BlockedNeed(c: Config, job: string, jobs: JobStatuses)
    requires job in c.jobs && job in jobs && NeedsOk(c, job, jobs) && SkipPropagation.Blocked(jobs, job)
    ensures exists d :: d in c.jobs[job].needs && d in jobs && SkipPropagation.Skipped(jobs)[d].phase.Blocking()
  {
    SkipPropagation.BlockedStep(jobs, job);
    var d :| d in jobs[job].pre && d in jobs && (jobs[d].phase.Blocking() || SkipPropagation.Blocked(jobs, d));
    assert d in c.jobs[job].needs;
  }

  /** Every skipped job needs one that failed or was skipped. */
  ghost predicate SkippedForACause(c: Config, jobs: JobStatuses) {
    forall job :: job in c.jobs && job in jobs && jobs[job].phase.JobSkipped? ==> HasBlockingNeed(c, jobs, job)
  }

  ghost predicate HasBlockingNeed(c: Config, jobs: JobStatuses, job: string)
    requires job in c.jobs
  {
    exists d :: d in c.jobs[job].needs && d in jobs && jobs[d].phase.Blocking()
  }

  /** Then every skipped job traces through needs to a failed one. */
  lemma CauseIsFailure(c: Config, jobs: JobStatuses)
    requires Acceptable(c) && jobs.Keys == c.jobs.Keys && SkippedForACause(c, jobs)
    requires exists job :: job in jobs && jobs[job].phase.JobSkipped?
    ensures exists job :: job in jobs && jobs[job].phase.JobFailed?
  {
    hide JobWellFormed, ActionsResolved, JobGraph.Acyclic, JobGraph.AllKnown;
    var skipped := set job | job in jobs && jobs[job].phase.JobSkipped?;
    var some :| some in jobs && jobs[some].phase.JobSkipped?;
    assert some in skipped;
    var job := JobGraph.MinimalJob(NeedsOf(c), skipped);
    assert HasBlockingNeed(c, jobs, job);
    var d :| d in c.jobs[job].needs && d in jobs && jobs[d].phase.Blocking();
    assert JobGraph.Edge(NeedsOf(c), job, d);
  }

  /** Whenever a job is skipped, some job failed. */
  lemma SkippedTracesToFailed(c: Config, jobs: JobStatuses, runs: map<StepKey, Run>, calls: map<string, ChildWorkflow>)
    requires Acceptable(c) && JobsOk(c, jobs, runs, calls)
    requires exists job :: job in jobs && jobs[job].phase.JobSkipped?
    ensures exists job :: job in jobs && jobs[job].phase.JobFailed?
  {
    hide StepsOk, PhaseMatchesSteps, CallOk, RunsKnown, CallsKnown, Acceptable;
    forall job | job in c.jobs && job in jobs && jobs[job].phase.JobSkipped? ensures HasBlockingNeed(c, jobs, job) {
      assert JobOk(c, job, jobs, runs, calls);
    }
    CauseIsFailure(c, jobs);
  }

  lemma PhaseDerived(c: Config, w: World, jobs: JobStatuses, r: JobStatuses)
    requires Acceptable(c) && PhaseOk(w, jobs) && r.Keys == jobs.Keys
    requires JobsOk(c, r, w.runs, w.calls)
    requires forall job :: job in jobs ==> Advances(jobs[job].phase, r[job].phase)
    requires !w.cancelRequested
    ensures PhaseOk(w.(status := Status(TerminalWorkflowPhase(w.status.phase, r), Some(r))), r)
    ensures w.status.phase.Terminal() ==> TerminalWorkflowPhase(w.status.phase, r) == w.status.phase
  {
    hide JobsOk, Acceptable;
    if w.status.phase.WorkflowFailed? {
      var job :| job in jobs && jobs[job].phase.JobFailed?;
      assert job in r && r[job].phase.JobFailed?;
    }
    if exists job :: job in r && r[job].phase.JobSkipped? {
      SkippedTracesToFailed(c, r, w.runs, w.calls);
    }
  }

  lemma PhaseCancelled(w: World, jobs: JobStatuses, r: JobStatuses)
    requires PhaseOk(w, jobs) && r.Keys == jobs.Keys && w.cancelRequested
    requires forall job :: job in jobs ==> Advances(jobs[job].phase, r[job].phase)
    ensures PhaseOk(w.(status := Status(CancelledPhase(w), Some(r))), r)
    ensures w.status.phase.Terminal() ==> CancelledPhase(w) == w.status.phase
  {
    if w.status.phase.WorkflowFailed? {
      var job :| job in jobs && jobs[job].phase.JobFailed?;
      assert job in r && r[job].phase.JobFailed?;
    }
  }

  ghost function SkippedAfter(
      c: Config, jobs: JobStatuses, runs: map<StepKey, Run>, calls: map<string, ChildWorkflow>): JobStatuses {
    SkipPropagation.Skipped(JobsDerived(c, jobs, runs, calls))
  }

  lemma SkippedAfterOk(c: Config, jobs: JobStatuses, runs: map<StepKey, Run>, calls: map<string, ChildWorkflow>)
    requires NamesDistinct(c) && Acceptable(c) && JobsOk(c, jobs, runs, calls)
    ensures var r := SkippedAfter(c, jobs, runs, calls);
            && JobsOk(c, r, runs, calls) && AllCurrent(c, r, runs, calls) && r.Keys == jobs.Keys
            && forall job :: job in jobs ==> Advances(jobs[job].phase, r[job].phase)
  {
    hide JobsDerived, JobsOk, Acceptable, NamesDistinct, AllCurrent, Advances;
    DerivedKeys(c, jobs, runs, calls);
    JobsDerivedOk(c, jobs, runs, calls);
    var derived := JobsDerived(c, jobs, runs, calls);
    SkippedOk(c, derived, runs, calls);
    var r := SkipPropagation.Skipped(derived);
    forall job | job in jobs ensures Advances(jobs[job].phase, r[job].phase) {
      AdvancesTransitive(jobs[job].phase, derived[job].phase, r[job].phase);
    }
  }

  lemma AdvancesTransitive(a: JobPhase, b: JobPhase, d: JobPhase)
    requires Advances(a, b) && Advances(b, d)
    ensures Advances(a, d)
  {
  }

  /** A derived status is consistent and current, and a terminal phase survives derivation. */
  lemma DeriveOk(c: Config, w: World)
    requires NamesDistinct(c) && Inv(c, w)
    ensures var d := w.(status := Derive(c, w));
            && Inv(c, d)
            && (w.status.phase.Terminal() ==> d.status.phase == w.status.phase)
            && (d.status.jobs.Some? <==> w.status.jobs.Some?)
            && (d.status.jobs.Some? ==> AllCurrent(c, d.status.jobs.value, d.runs, d.calls))
  {
    hide JobsDerived, JobsOk, Acceptable, NamesDistinct, PhaseOk, AllCurrent, CancelledPhase, TerminalWorkflowPhase,
         SkipPropagation.Skipped, Advances;
    if w.status.jobs.Some? {
      var jobs := w.status.jobs.value;
      if w.cancelRequested {
        DerivedKeys(c, jobs, w.runs, w.calls);
        JobsDerivedOk(c, jobs, w.runs, w.calls);
        PhaseCancelled(w, jobs, JobsDerived(c, jobs, w.runs, w.calls));
      } else {
        SkippedAfterOk(c, jobs, w.runs, w.calls);
        PhaseDerived(c, w, jobs, SkippedAfter(c, jobs, w.runs, w.calls));
      }
    } else {
      NothingDerived(w);
    }
  }

  lemma NothingDerived(w: World)
    ensures CancelledPhase(w) == w.status.phase || (CancelledPhase(w).WorkflowCancelled? && !w.status.phase.Terminal())
  {
  }

  // ---- initialization keeps it ----------------------------------------------

  lemma InitialJobsOk(c: Config)
    requires Acceptable(c)
    ensures JobsOk(c, InitialJobStatuses(c), map[], map[])
  {
    var jobs := InitialJobStatuses(c);
    forall job | job in c.jobs ensures JobOk(c, job, jobs, map[], map[]) {
      assert JobWellFormed(c.jobs[job]) && ActionsResolved(c, job);
      FreshJobOk(c, job);
    }
  }

  lemma FreshJobOk(c: Config, job: string)
    requires job in c.jobs && ActionsResolved(c, job)
    ensures JobOk(c, job, InitialJobStatuses(c), map[], map[])
  {
    var steps := InitialJobStatuses(c)[job].steps;
    forall i | 0 <= i < |steps| ensures StepOk(c, job, c.jobs[job].steps[i], steps[i], map[]) && Untouched(steps[i]) {
      assert steps[i] == FreshStep(c, job, c.jobs[job].steps[i]);
    }
  }

  // ---- child progress keeps it ----------------------------------------------

  /** Children keep their names, and a finished child does not change. */
  ghost predicate RunsProgress(runs: map<StepKey, Run>, after: map<StepKey, Run>) {
    && after.Keys == runs.Keys
    && forall k :: k in runs ==>
         && after[k].name == runs[k].name
         && (runs[k].phase.Terminal() ==> after[k].phase == runs[k].phase && after[k].outputs == runs[k].outputs)
  }

  ghost predicate CallsProgress(calls: map<string, ChildWorkflow>, after: map<string, ChildWorkflow>) {
    && after.Keys == calls.Keys
    && forall n :: n in calls && calls[n].phase.Terminal() ==> after[n].phase == calls[n].phase
  }

  lemma StepProgressKept(
      c: Config, job: string, spec: StepSpec, s: StepStatus, runs: map<StepKey, Run>, after: map<StepKey, Run>)
    requires StepOk(c, job, spec, s, runs) && RunsProgress(runs, after)
    ensures StepOk(c, job, spec, s, after)
  {
    if spec.uses != "" {
      forall a | 0 <= a < |s.actionSteps|
        ensures SlotOk(c, after, StepKey(job, s.name, s.actionSteps[a].name), s.actionSteps[a].phase,
                  s.actionSteps[a].runName)
      {
        assert SlotOk(c, runs, StepKey(job, s.name, s.actionSteps[a].name), s.actionSteps[a].phase,
            s.actionSteps[a].runName);
      }
    }
  }

  lemma ProgressKept(
      c: Config, jobs: JobStatuses, runs: map<StepKey, Run>, after: map<StepKey, Run>,
      calls: map<string, ChildWorkflow>, callsAfter: map<string, ChildWorkflow>)
    requires JobsOk(c, jobs, runs, calls) && RunsProgress(runs, after) && CallsProgress(calls, callsAfter)
    ensures JobsOk(c, jobs, after, callsAfter)
  {
    hide NeedsOk, PhaseMatchesSteps, KeyKnown;
    forall job | job in c.jobs ensures JobOk(c, job, jobs, after, callsAfter) {
      assert JobOk(c, job, jobs, runs, calls);
      StepsProgressKept(c, job, jobs[job].steps, runs, after);
    }
  }

  lemma StepsProgressKept(
      c: Config, job: string, steps: seq<StepStatus>, runs: map<StepKey, Run>, after: map<StepKey, Run>)
    requires job in c.jobs && StepsOk(c, job, steps, runs) && RunsProgress(runs, after)
    ensures StepsOk(c, job, steps, after)
  {
    forall i | 0 <= i < |steps| ensures StepOk(c, job, c.jobs[job].steps[i], steps[i], after) {
      assert StepOk(c, job, c.jobs[job].steps[i], steps[i], runs);
      StepProgressKept(c, job, c.jobs[job].steps[i], steps[i], runs, after);
    }
  }

  /** A world in which only the children moved on. */
  lemma WorldProgressKept(c: Config, w: World, after: World)
    requires Inv(c, w) && after.status == w.status && (w.cancelRequested ==> after.cancelRequested)
    requires RunsProgress(w.runs, after.runs) && CallsProgress(w.calls, after.calls)
    ensures Inv(c, after)
  {
    hide JobsOk, Acceptable, RunsProgress, CallsProgress, PhaseOk;
    if w.status.jobs.Some? {
      ProgressKept(c, w.status.jobs.value, w.runs, after.runs, w.calls, after.calls);
      PhaseProgressKept(w, after, w.status.jobs.value);
    } else {
      NothingProgresses(w.runs, after.runs, w.calls, after.calls);
    }
  }

  lemma PhaseProgressKept(w: World, after: World, jobs: JobStatuses)
    requires PhaseOk(w, jobs) && after.status == w.status && (w.cancelRequested ==> after.cancelRequested)
    requires RunsProgress(w.runs, after.runs) && CallsProgress(w.calls, after.calls)
    ensures PhaseOk(after, jobs)
  {
  }

  lemma NothingProgresses(
      runs: map<StepKey, Run>, after: map<StepKey, Run>, calls: map<string, ChildWorkflow>,
      callsAfter: map<string, ChildWorkflow>)
    requires runs == map[] && calls == map[] && RunsProgress(runs, after) && CallsProgress(calls, callsAfter)
    ensures after == map[] && callsAfter == map[]
  {
  }

  // ---- reconciling keeps it -------------------------------------------------

  lemma ReconcileKeepsInv(c: Config, w: World, names: seq<string>, rejected: set<string>, accept: bool)
    requires NamesDistinct(c) && Inv(c, w) && Enumerates(names, c.jobs.Keys)
    ensures Inv(c, Reconcile(c, w, names, rejected, accept))
    ensures w.status.phase.Terminal() ==> Reconcile(c, w, names, rejected, accept).status.phase == w.status.phase
    ensures w.cancelRequested || w.status.phase.Terminal() ==>
              && Reconcile(c, w, names, rejected, accept).runs.Keys == w.runs.Keys
              && Reconcile(c, w, names, rejected, accept).calls.Keys == w.calls.Keys
    ensures Reconcile(c, w, names, rejected, accept).cancelRequested == w.cancelRequested
  {
    hide Derive, JobsOk, Acceptable, NamesDistinct, AllCurrent, Targets, StartAll;
    DeriveOk(c, w);
    var d := w.(status := Derive(c, w));
    match PlanFor(c, d, names)
    case Nothing =>
    case Initialize =>
      if Acceptable(c) {
        InitialJobsOk(c);
      }
    case Start(targets) =>
      TargetsReady(c, d.status.jobs.value, names);
      StartAllOk(c, d, targets, rejected);
    case RequestChildCancellation =>
      CancelIsProgress(d);
      WorldProgressKept(c, d, CancelChildren(d));
  }

  lemma CancelIsProgress(w: World)
    ensures RunsProgress(w.runs, CancelChildren(w).runs) && CallsProgress(w.calls, CancelChildren(w).calls)
  {
  }

  lemma StepKeepsInv(c: Config, w: World, e: Event)
    requires NamesDistinct(c) && Inv(c, w) && Enabled(c, w, e)
    ensures Inv(c, Step(c, w, e))
    ensures w.status.phase.Terminal() ==> Step(c, w, e).status.phase == w.status.phase
    ensures w.cancelRequested ==> Step(c, w, e).cancelRequested
    ensures w.cancelRequested || w.status.phase.Terminal() ==>
              && Step(c, w, e).runs.Keys == w.runs.Keys && Step(c, w, e).calls.Keys == w.calls.Keys
  {
    hide Reconcile, Inv, NamesDistinct;
    match e
    case Reconciled(names, rejected, accept) => ReconcileKeepsInv(c, w, names, rejected, accept);
    case RunMoved(_, _) => WorldProgressKept(c, w, Step(c, w, e));
    case CallMoved(_, _) => WorldProgressKept(c, w, Step(c, w, e));
    case CancelRequested => WorldProgressKept(c, w, Step(c, w, e));
  }

  lemma {:induction false} BehaviourKeepsInv(c: Config, ws: seq<World>, es: seq<Event>, n: nat)
    requires NamesDistinct(c) && Behaviour(c, ws, es) && n < |ws|
    ensures Inv(c, ws[n])
  {
    if n > 0 {
      BehaviourKeepsInv(c, ws, es, n - 1);
      assert Enabled(c, ws[n - 1], es[n - 1]) && ws[n - 1 + 1] == Step(c, ws[n - 1], es[n - 1]);
      StepKeepsInv(c, ws[n - 1], es[n - 1]);
    }
  }
}
