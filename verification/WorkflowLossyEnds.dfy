/** How a WorkflowRun ends when status patches may be lost. */
module WorkflowLossyEnds {
  import opened Common
  import opened WorkflowStatus
  import opened WorkflowDerive
  import opened WorkflowPlan
  import opened WorkflowInvariant
  import opened WorkflowStart
  import opened WorkflowLossy
  import opened WorkflowStalls
  import M = WorkflowMachine
  import SkipPropagation

  /** What the phase and the skipped jobs of a stored status rest on. */
  ghost predicate EndOk(c: Config, w: World) {
    && (w.status.phase.WorkflowSucceeded? ==>
          w.status.jobs.Some? && forall job :: job in c.jobs ==>
            job in w.status.jobs.value && w.status.jobs.value[job].phase.JobSucceeded?)
    && (w.status.phase.WorkflowSucceeded? ==> c.jobs != map[])
    && (w.status.phase.WorkflowCancelled? ==> w.cancelRequested && Quiet(w.runs, w.calls))
    && (w.status.jobs.Some? ==> M.SkippedForACause(c, w.status.jobs.value))
  }

  // ---- derivation -----------------------------------------------------------

  /** Terminal jobs stay as they are, and no job becomes Skipped. */
  ghost predicate Settling(jobs: JobStatuses, after: JobStatuses) {
    && after.Keys == jobs.Keys
    && (forall job :: job in jobs && jobs[job].phase.Terminal() ==> after[job].phase == jobs[job].phase)
    && (forall job :: job in jobs && after[job].phase.JobSkipped? ==> jobs[job].phase.JobSkipped?)
  }

  lemma DerivedSettles(c: Config, jobs: JobStatuses, runs: map<StepKey, Run>, calls: map<string, ChildWorkflow>)
    ensures Settling(jobs, JobsDerived(c, jobs, runs, calls))
  {
    hide JobClosed, CallDerived, ActionsDone, ProjectedSteps;
    M.DerivedKeys(c, jobs, runs, calls);
    var acted := ActionsDerived(c, Projected(c, jobs, runs));
    forall job | job in jobs
      ensures var r := JobClosed(c, job, CallDerived(acted[job], calls));
              && acted[job].phase == jobs[job].phase
              && (jobs[job].phase.Terminal() ==> r.phase == jobs[job].phase)
              && (r.phase.JobSkipped? ==> jobs[job].phase.JobSkipped?)
    {
      ClosingSettles(c, job, acted[job], calls);
    }
  }

  lemma ClosingSettles(c: Config, job: string, status: JobStatus, calls: map<string, ChildWorkflow>)
    ensures var r := JobClosed(c, job, CallDerived(status, calls));
            && (status.phase.Terminal() ==> r.phase == status.phase)
            && (r.phase.JobSkipped? ==> status.phase.JobSkipped?)
  {
    hide ResolveAll, StepContext;
  }

  lemma SettlingKeepsCause(c: Config, jobs: JobStatuses, after: JobStatuses)
    requires Settling(jobs, after) && M.SkippedForACause(c, jobs)
    ensures M.SkippedForACause(c, after)
  {
    forall job | job in c.jobs && job in after && after[job].phase.JobSkipped?
      ensures M.HasBlockingNeed(c, after, job)
    {
      assert M.HasBlockingNeed(c, jobs, job);
      var d :| d in c.jobs[job].needs && d in jobs && jobs[d].phase.Blocking();
      assert after[d].phase.Blocking();
    }
  }

  lemma SkippingHasCause(c: Config, jobs: JobStatuses, runs: map<StepKey, Run>, calls: map<string, ChildWorkflow>)
    requires M.SkippedForACause(c, jobs) && JobsSound(c, jobs, runs, calls)
    ensures M.SkippedForACause(c, SkipPropagation.Skipped(jobs))
  {
    hide SkipPropagation.Blocked;
    var r := SkipPropagation.Skipped(jobs);
    forall job | job in c.jobs && job in r && r[job].phase.JobSkipped? ensures M.HasBlockingNeed(c, r, job) {
      SkipPropagation.BlockedStep(jobs, job);
      assert JobSound(c, job, jobs[job], runs, calls);
      if SkipPropagation.Blocked(jobs, job) {
        var d :| d in jobs[job].pre && d in jobs && (jobs[d].phase.Blocking() || SkipPropagation.Blocked(jobs, d));
        assert d in c.jobs[job].needs && r[d].phase.Blocking();
      } else {
        assert M.HasBlockingNeed(c, jobs, job);
        var d :| d in c.jobs[job].needs && d in jobs && jobs[d].phase.Blocking();
        assert r[d].phase.Blocking();
      }
    }
  }

  lemma SucceededStaysSo(jobs: JobStatuses, job: string)
    requires job in jobs && jobs[job].phase.JobSucceeded?
    ensures SkipPropagation.Skipped(jobs)[job] == jobs[job]
  {
    SkipPropagation.BlockedStep(jobs, job);
  }

  /** All jobs ended and none failed: then all succeeded. */
  lemma AllEnded(c: Config, jobs: JobStatuses, phase: WorkflowPhase)
    requires Acceptable(c) && jobs.Keys == c.jobs.Keys && M.SkippedForACause(c, jobs)
    requires TerminalWorkflowPhase(phase, jobs).WorkflowSucceeded? && !phase.WorkflowSucceeded?
    ensures c.jobs != map[] && forall job :: job in c.jobs ==> jobs[job].phase.JobSucceeded?
  {
    hide Acceptable, M.SkippedForACause;
    if job :| job in jobs && jobs[job].phase.JobSkipped? {
      M.CauseIsFailure(c, jobs);
    }
  }

  lemma DeriveEnds(c: Config, w: World)
    requires NamesDistinct(c) && Inv(c, w) && EndOk(c, w)
    ensures EndOk(c, w.(status := Derive(c, w)))
  {
    if w.status.jobs.Some? {
      var jobs := w.status.jobs.value;
      RunsInOrderKnown(c, w.runs, w.calls);
      JobsDerivedSound(c, jobs, w.runs, w.calls);
      DerivedSettles(c, jobs, w.runs, w.calls);
      var r := JobsDerived(c, jobs, w.runs, w.calls);
      CancelledEnds(c, w, r);
      SkippedEnds(c, w, r);
      hide EndOk, Inv, NamesDistinct, JobsDerived, TerminalWorkflowPhase, SkipPropagation.Skipped, CancelledPhase;
    }
  }

  lemma CancelledEnds(c: Config, w: World, r: JobStatuses)
    requires EndOk(c, w) && w.status.jobs.Some? && Settling(w.status.jobs.value, r)
    ensures w.cancelRequested ==> EndOk(c, w.(status := Status(CancelledPhase(w), Some(r))))
  {
    hide M.SkippedForACause;
    SettlingKeepsCause(c, w.status.jobs.value, r);
  }

  lemma SkippedEnds(c: Config, w: World, r: JobStatuses)
    requires EndOk(c, w) && w.status.jobs.Some? && Settling(w.status.jobs.value, r)
    requires Acceptable(c) && JobsSound(c, r, w.runs, w.calls)
    ensures var s := SkipPropagation.Skipped(r);
            EndOk(c, w.(status := Status(TerminalWorkflowPhase(w.status.phase, s), Some(s))))
  {
    hide Acceptable, SkipPropagation.Blocked, JobSound, M.SkippedForACause, Quiet;
    var s := SkipPropagation.Skipped(r);
    SettlingKeepsCause(c, w.status.jobs.value, r);
    SkippingHasCause(c, r, w.runs, w.calls);
    if w.status.phase.WorkflowSucceeded? {
      forall job | job in c.jobs ensures s[job].phase.JobSucceeded? {
        SucceededStaysSo(r, job);
      }
    } else if TerminalWorkflowPhase(w.status.phase, s).WorkflowSucceeded? {
      AllEnded(c, s, w.status.phase);
    }
  }

  // ---- applying the plan ----------------------------------------------------

  lemma {:induction false} StartAllPhases(c: Config, w: World, targets: seq<Target>, rejected: set<string>)
    requires w.status.jobs.Some?
    ensures var after := StartAll(c, w, targets, rejected);
            && after.status.jobs.Some? && after.status.jobs.value.Keys == w.status.jobs.value.Keys
            && (forall job :: job in w.status.jobs.value ==>
                  after.status.jobs.value[job].phase.JobSkipped? ==> w.status.jobs.value[job].phase.JobSkipped?)
    decreases |targets|
  {
    if targets != [] && Startable(c, w, targets[0]) {
      var next := StartOne(c, w, targets[0], rejected);
      StartOnePhases(c, w, targets[0], rejected);
      hide StartOne;
      StartAllPhases(c, next, targets[1..], rejected);
    }
  }

  lemma StartOnePhases(c: Config, w: World, t: Target, rejected: set<string>)
    requires Startable(c, w, t)
    ensures var after := StartOne(c, w, t, rejected);
            && after.status.jobs.Some? && after.status.jobs.value.Keys == w.status.jobs.value.Keys
            && (forall job :: job in w.status.jobs.value ==>
                  after.status.jobs.value[job].phase.JobSkipped? ==> w.status.jobs.value[job].phase.JobSkipped?)
  {
    hide TargetKey;
  }

  lemma TargetIsOpen(c: Config, jobs: JobStatuses, t: Target)
    requires Ready(c, jobs, t)
    ensures t.job in jobs && !jobs[t.job].phase.Terminal()
  {
  }

  lemma StartEnds(c: Config, w: World, names: seq<string>, targets: seq<Target>, rejected: set<string>)
    requires EndOk(c, w) && w.status.jobs.Some? && !w.status.phase.Terminal() && Enumerates(names, c.jobs.Keys)
    requires targets <= Targets(c, w.status.jobs.value, names)
    ensures EndOk(c, StartAll(c, w, targets, rejected))
  {
    hide Targets, StartAll, Ready, M.SkippedForACause, Enumerates;
    var jobs, after := w.status.jobs.value, StartAll(c, w, targets, rejected);
    TargetsFromNames(c, jobs, names);
    StartAllFrame(c, w, targets, rejected);
    StartAllPhases(c, w, targets, rejected);
    forall job | job in jobs && jobs[job].phase.Terminal()
      ensures after.status.jobs.value[job].phase == jobs[job].phase
    {
      forall i | 0 <= i < |targets| ensures targets[i].job != job {
        assert Ready(c, jobs, Targets(c, jobs, names)[i]);
        TargetIsOpen(c, jobs, targets[i]);
      }
      assert NoTarget(targets, job);
    }
    SettlingKeepsCause(c, jobs, after.status.jobs.value);
  }

  lemma TargetsFromNames(c: Config, jobs: JobStatuses, names: seq<string>)
    requires Enumerates(names, c.jobs.Keys)
    ensures AllReady(c, jobs, Targets(c, jobs, names))
  {
    TargetsReady(c, jobs, names);
  }

  /** A WorkflowRun that has been cancelled has nothing left to start or stop. */
  lemma CancelledPlansNothing(c: Config, w: World, names: seq<string>)
    requires w.status.phase.WorkflowCancelled? && w.cancelRequested && Quiet(w.runs, w.calls)
    ensures PlanFor(c, w, names).Nothing?
  {
  }

  lemma CancelEnds(c: Config, w: World, names: seq<string>)
    requires EndOk(c, w) && PlanFor(c, w, names).RequestChildCancellation?
    ensures EndOk(c, CancelChildren(w))
  {
    hide PlanFor, M.SkippedForACause;
    if w.status.phase.WorkflowCancelled? {
      CancelledPlansNothing(c, w, names);
    }
  }

  lemma InitializeEnds(c: Config, w: World)
    requires w.status.jobs.None?
    ensures EndOk(c, w.(status := Status(WorkflowPending, Some(InitialJobStatuses(c)))))
    ensures EndOk(c, w.(status := w.status.(phase := WorkflowFailed)))
  {
  }

  /** A plan to start is made only for a WorkflowRun that has not ended. */
  lemma StartIsOpen(c: Config, w: World, names: seq<string>)
    ensures PlanFor(c, w, names).Start? ==> !w.status.phase.Terminal()
  {
  }

  lemma ReconcileEnds(c: Config, w: World, names: seq<string>, rejected: set<string>, accept: bool)
    requires NamesDistinct(c) && Inv(c, w) && EndOk(c, w) && Enumerates(names, c.jobs.Keys)
    ensures EndOk(c, Reconcile(c, w, names, rejected, accept))
  {
    hide NamesDistinct, Inv, EndOk, Derive, PlanFor, Targets, StartAll, CancelChildren, Acceptable, InitialJobStatuses,
         Enumerates;
    DeriveEnds(c, w);
    var d := w.(status := Derive(c, w));
    PlanMeans(c, d, names);
    StartIsOpen(c, d, names);
    match PlanFor(c, d, names)
    case Nothing =>
    case Initialize => InitializeEnds(c, d);
    case Start(targets) => StartEnds(c, d, names, targets, rejected);
    case RequestChildCancellation => CancelEnds(c, d, names);
  }

  lemma StatusEnds(c: Config, w: World, after: World)
    requires EndOk(c, w) && !w.status.phase.WorkflowCancelled? && after.status == w.status
    ensures EndOk(c, after)
  {
  }

  lemma CancelledStaysSo(c: Config, w: World, names: seq<string>)
    requires NamesDistinct(c) && Inv(c, w) && EndOk(c, w) && w.status.phase.WorkflowCancelled?
    ensures PlanFor(c, w.(status := Derive(c, w)), names).Nothing?
  {
    DeriveEnds(c, w);
    hide JobsDerived, NamesDistinct, Inv;
    CancelledPlansNothing(c, w.(status := Derive(c, w)), names);
  }

  lemma LostEnds(c: Config, w: World, names: seq<string>, rejected: set<string>, served: nat)
    requires NamesDistinct(c) && Inv(c, w) && EndOk(c, w) && Enumerates(names, c.jobs.Keys)
    ensures EndOk(c, LostReconcile(c, w, names, rejected, served))
  {
    hide NamesDistinct, Inv, EndOk, Derive, PlanFor, StartAll, CancelChildren, Enumerates;
    if w.status.phase.WorkflowCancelled? {
      CancelledStaysSo(c, w, names);
    } else {
      StatusEnds(c, w, LostReconcile(c, w, names, rejected, served));
    }
  }

  lemma StepKeepsEnds(c: Config, w: World, e: Event)
    requires NamesDistinct(c) && Inv(c, w) && EndOk(c, w) && Enabled(c, w, e)
    ensures EndOk(c, Step(c, w, e))
  {
    hide NamesDistinct, Inv, Reconcile, LostReconcile, M.SkippedForACause;
    match e
    case Lost(names, rejected, served) => LostEnds(c, w, names, rejected, served);
    case Landed(step) =>
      if step.Reconciled? {
        ReconcileEnds(c, w, step.names, step.rejected, step.accept);
      }
  }

  lemma {:induction false} BehaviourKeepsEnds(c: Config, ws: seq<World>, es: seq<Event>, n: nat)
    requires NamesDistinct(c) && Behaviour(c, ws, es) && n < |ws|
    ensures Inv(c, ws[n]) && EndOk(c, ws[n])
  {
    BehaviourKeepsInv(c, ws, es, n);
    hide NamesDistinct, Inv, Enabled, Step;
    if n > 0 {
      BehaviourKeepsEnds(c, ws, es, n - 1);
      assert Enabled(c, ws[n - 1], es[n - 1]) && ws[n - 1 + 1] == Step(c, ws[n - 1], es[n - 1]);
      hide EndOk;
      StepKeepsEnds(c, ws[n - 1], es[n - 1]);
    }
  }

  // ---- what an end means ----------------------------------------------------

  lemma DoneIsQuiet(c: Config, w: World)
    requires Inv(c, w) && w.status.jobs.Some?
    requires forall job :: job in c.jobs ==> w.status.jobs.value[job].phase.JobSucceeded?
    ensures Quiet(w.runs, w.calls)
  {
    var jobs := w.status.jobs.value;
    forall k | k in w.runs ensures w.runs[k].phase.Terminal() {
      assert InOrder(c, w.runs, w.calls, k) && JobSound(c, k.job, jobs[k.job], w.runs, w.calls);
      assert JobWellFormed(c.jobs[k.job]);
      assert Done(c, w.runs, k);
    }
    forall n | n in w.calls ensures w.calls[n].phase.Terminal() {
      assert CallInOrder(c, w.runs, w.calls, n);
      var job :| job in c.jobs && c.jobs[job].uses != "" && c.callName(job) == n && NeedsDone(c, job, w.runs, w.calls);
      assert JobSound(c, job, jobs[job], w.runs, w.calls);
    }
  }

  /**
    * Whatever patches are lost: a WorkflowRun that succeeded has seen every job and every child succeed,
    * and one that was cancelled has no unfinished child.
    */
  lemma LossyEndIsQuiet(c: Config, ws: seq<World>, es: seq<Event>, n: nat)
    requires NamesDistinct(c) && Behaviour(c, ws, es) && n < |ws|
    requires ws[n].status.phase.WorkflowSucceeded? || ws[n].status.phase.WorkflowCancelled?
    ensures Quiet(ws[n].runs, ws[n].calls)
    ensures ws[n].status.phase.WorkflowSucceeded? ==>
              forall job :: job in c.jobs ==> JobDone(c, job, ws[n].runs, ws[n].calls)
  {
    BehaviourKeepsEnds(c, ws, es, n);
    if ws[n].status.phase.WorkflowSucceeded? {
      DoneIsQuiet(c, ws[n]);
      forall job | job in c.jobs ensures JobDone(c, job, ws[n].runs, ws[n].calls) {
        assert JobSound(c, job, ws[n].status.jobs.value[job], ws[n].runs, ws[n].calls);
      }
    }
  }

  // ---- when a calling job fails over its running child ----------------------

  /** The job is about to be started, as far as its status goes. */
  ghost predicate CallPlanned(c: Config, w: World, job: string) {
    && !w.cancelRequested && !Derive(c, w).phase.Terminal() && Derive(c, w).jobs.Some?
    && CallTargetFor(c, Derive(c, w).jobs.value, job).Some?
  }

  lemma DerivedCallJob(
      c: Config, jobs: JobStatuses, runs: map<StepKey, Run>, calls: map<string, ChildWorkflow>, job: string)
    requires JobsSound(c, jobs, runs, calls) && Acceptable(c) && job in c.jobs && c.jobs[job].uses != ""
    requires c.callName(job) in calls && !calls[c.callName(job)].phase.Terminal() && !jobs[job].phase.JobFailed?
    ensures job in JobsDerived(c, jobs, runs, calls)
    ensures JobsDerived(c, jobs, runs, calls)[job].phase == jobs[job].phase
  {
    hide NeedsDone, JobDone, ActionsDone, ProjectedStep, ResolveAll, StepContext;
    assert JobSound(c, job, jobs[job], runs, calls);
    AcceptedJob(c, job);
    assert jobs[job].steps == [];
    var projected := Projected(c, jobs, runs);
    assert projected[job].steps == [];
    var acted := ActionsDerived(c, projected);
    assert acted[job].steps == [];
  }

  lemma DerivedNotFailed(c: Config, w: World, job: string)
    requires Inv(c, w) && w.status.jobs.Some? && job in c.jobs && c.jobs[job].uses != ""
    requires c.callName(job) in w.calls && !w.calls[c.callName(job)].phase.Terminal()
    requires job in w.status.jobs.value && !w.status.jobs.value[job].phase.JobFailed?
    ensures var d := Derive(c, w); d.jobs.Some? && job in d.jobs.value && !d.jobs.value[job].phase.JobFailed?
  {
    hide JobsDerived, AllInOrder, Acceptable, JobsSound, SkipPropagation.Blocked;
    DerivedCallJob(c, w.status.jobs.value, w.runs, w.calls, job);
  }

  lemma OneCallStarted(c: Config, w: World, t: Target, rejected: set<string>, job: string)
    requires Startable(c, w, t) && job in w.status.jobs.value && !w.status.jobs.value[job].phase.JobFailed?
    requires t.job == job ==> t.CallTarget?
    ensures var after := StartOne(c, w, t, rejected);
            && after.status.jobs.Some? && job in after.status.jobs.value
            && (after.status.jobs.value[job].phase.JobFailed? <==> t.job == job && job in rejected)
            && forall u: Target :: u.job != t.job ==> (Startable(c, w, u) <==> Startable(c, after, u))
  {
    hide RecordStepRun, RecordStepFailure, TargetKey;
  }

  lemma {:induction false} CallsStarted(
      c: Config, w: World, targets: seq<Target>, rejected: set<string>, job: string)
    requires w.status.jobs.Some? && job in w.status.jobs.value && !w.status.jobs.value[job].phase.JobFailed?
    requires DistinctJobs(targets) && forall i :: 0 <= i < |targets| ==> Startable(c, w, targets[i])
    requires forall i :: 0 <= i < |targets| && targets[i].job == job ==> targets[i].CallTarget?
    ensures var after := StartAll(c, w, targets, rejected);
            && after.status.jobs.Some? && job in after.status.jobs.value
            && (after.status.jobs.value[job].phase.JobFailed? <==> CallTarget(job) in targets && job in rejected)
    decreases |targets|
  {
    if targets != [] {
      var t, rest := targets[0], targets[1..];
      var next := StartOne(c, w, t, rejected);
      OneCallStarted(c, w, t, rejected, job);
      hide StartOne, Startable;
      assert targets == [t] + rest;
      forall i | 0 <= i < |rest| ensures Startable(c, next, rest[i]) && rest[i].job != t.job {
        assert rest[i] == targets[i + 1];
      }
      if t.job == job && job in rejected {
        assert t == CallTarget(job) && NoTarget(rest, job);
        StartAllFrame(c, next, rest, rejected);
      } else {
        CallsStarted(c, next, rest, rejected, job);
        assert t.job == job ==> CallTarget(job) !in rest;
      }
    }
  }

  lemma {:induction false} CallIsPlanned(c: Config, jobs: JobStatuses, names: seq<string>, job: string)
    requires CallTargetFor(c, jobs, job).Some? && job in names
    ensures CallTarget(job) in RunnableCallTargets(c, jobs, names)
  {
    if names[0] != job {
      CallIsPlanned(c, jobs, names[1..], job);
    }
  }

  lemma ReadyIsStartable(c: Config, w: World, t: Target)
    requires w.status.jobs.Some? && Ready(c, w.status.jobs.value, t)
    ensures Startable(c, w, t) && (t.StepTarget? ==> c.jobs[t.job].uses == "")
  {
  }

  lemma PlannedFailure(c: Config, d: World, names: seq<string>, rejected: set<string>, job: string)
    requires Enumerates(names, c.jobs.Keys) && d.status.jobs.Some? && job in d.status.jobs.value
    requires job in c.jobs && c.jobs[job].uses != "" && !d.status.jobs.value[job].phase.JobFailed?
    ensures var jobs := d.status.jobs.value;
            var after := StartAll(c, d, Targets(c, jobs, names), rejected);
            && after.status.jobs.Some? && job in after.status.jobs.value
            && (after.status.jobs.value[job].phase.JobFailed? <==>
                  CallTargetFor(c, jobs, job).Some? && job in rejected)
  {
    hide StartAll, Startable, CallTargetFor, StepTargetFor, RunnableStepTargets, RunnableCallTargets;
    var jobs := d.status.jobs.value;
    var targets := Targets(c, jobs, names);
    TargetsReady(c, jobs, names);
    forall i | 0 <= i < |targets|
      ensures Startable(c, d, targets[i]) && (targets[i].job == job ==> targets[i].CallTarget?)
    {
      assert Ready(c, jobs, targets[i]);
      ReadyIsStartable(c, d, targets[i]);
    }
    if CallTargetFor(c, jobs, job).Some? {
      CallIsPlanned(c, jobs, names, job);
      assert CallTarget(job) in targets;
    }
    if CallTarget(job) in targets {
      var i :| 0 <= i < |targets| && targets[i] == CallTarget(job);
      assert Ready(c, jobs, targets[i]);
    }
    CallsStarted(c, d, targets, rejected, job);
  }

  /** With the job planned there is something to start. */
  lemma CallPlannedMeans(c: Config, d: World, names: seq<string>, job: string)
    requires Enumerates(names, c.jobs.Keys) && d.status.jobs.Some? && job in c.jobs
    ensures PlanFor(c, d, names).Start? ==> !d.cancelRequested && !d.status.phase.Terminal()
    ensures !d.cancelRequested && !d.status.phase.Terminal() && CallTargetFor(c, d.status.jobs.value, job).Some? ==>
              PlanFor(c, d, names).Start?
    ensures !PlanFor(c, d, names).Initialize?
  {
    hide CallTargetFor, RunnableStepTargets, RunnableCallTargets;
    if CallTargetFor(c, d.status.jobs.value, job).Some? {
      CallIsPlanned(c, d.status.jobs.value, names, job);
    }
  }

  /**
    * While the child of a calling job is unfinished, a reconcile records the job as failed exactly when it
    * plans to start it once more, the start never having been recorded, and the call is rejected.
    */
  lemma CallFailsEarlyIff(
      c: Config, ws: seq<World>, es: seq<Event>, n: nat, names: seq<string>, rejected: set<string>, accept: bool,
      job: string)
    requires NamesDistinct(c) && Behaviour(c, ws, es) && n < |ws| && Enumerates(names, c.jobs.Keys)
    requires job in c.jobs && c.jobs[job].uses != "" && ws[n].status.jobs.Some? && job in ws[n].status.jobs.value
    requires c.callName(job) in ws[n].calls && !ws[n].calls[c.callName(job)].phase.Terminal()
    requires !ws[n].status.jobs.value[job].phase.JobFailed?
    ensures var after := Reconcile(c, ws[n], names, rejected, accept);
            && after.status.jobs.Some? && job in after.status.jobs.value
            && (after.status.jobs.value[job].phase.JobFailed? <==> CallPlanned(c, ws[n], job) && job in rejected)
  {
    BehaviourKeepsInv(c, ws, es, n);
    hide *;
    DerivedNotFailed(c, ws[n], job);
    ReconciledCall(c, ws[n], names, rejected, accept, job);
  }

  lemma ReconciledCall(
      c: Config, w: World, names: seq<string>, rejected: set<string>, accept: bool, job: string)
    requires Enumerates(names, c.jobs.Keys) && job in c.jobs && c.jobs[job].uses != ""
    requires var d := Derive(c, w); d.jobs.Some? && job in d.jobs.value && !d.jobs.value[job].phase.JobFailed?
    ensures var after := Reconcile(c, w, names, rejected, accept);
            && after.status.jobs.Some? && job in after.status.jobs.value
            && (after.status.jobs.value[job].phase.JobFailed? <==> CallPlanned(c, w, job) && job in rejected)
  {
    hide Derive, PlanFor, Targets, StartAll, CallTargetFor, Enumerates, Acceptable, InitialJobStatuses;
    var d := w.(status := Derive(c, w));
    PlanMeans(c, d, names);
    CallPlannedMeans(c, d, names, job);
    if PlanFor(c, d, names).Start? {
      PlannedFailure(c, d, names, rejected, job);
    }
  }
}
