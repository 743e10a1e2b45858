/** What one reconcile does to the children: whom it stops, whom it starts, and whom it leaves alone. */
module WorkflowEffects {
  import opened Common
  import opened WorkflowStatus
  import opened WorkflowDerive
  import opened WorkflowPlan
  import opened WorkflowInvariant
  import opened WorkflowStart
  import opened WorkflowMachine
  import Stalls = WorkflowStalls
  import Ends = WorkflowLossyEnds

  lemma StepOf(c: Config, ws: seq<World>, es: seq<Event>, n: nat)
    requires Behaviour(c, ws, es) && n < |es|
    ensures |ws| == |es| + 1 && Enabled(c, ws[n], es[n]) && ws[n + 1] == Step(c, ws[n], es[n])
  {
  }

  // ---- cancellation ---------------------------------------------------------

  /** Everyone who has not finished has been told to stop. */
  ghost predicate AllTold(runs: map<StepKey, Run>, calls: map<string, ChildWorkflow>) {
    && (forall k :: k in runs ==> runs[k].phase.Terminal() || runs[k].terminating)
    && (forall n :: n in calls ==> calls[n].phase.Terminal() || calls[n].cancelRequested)
  }

  lemma ReconcileTellsAll(c: Config, w: World, names: seq<string>, rejected: set<string>, accept: bool)
    requires w.cancelRequested
    ensures var after := Reconcile(c, w, names, rejected, accept);
            && AllTold(after.runs, after.calls)
            && after.runs.Keys == w.runs.Keys && after.calls.Keys == w.calls.Keys
  {
    hide Derive, Targets, StartAll, InitialJobStatuses, Acceptable;
  }

  /**
    * A reconcile of a WorkflowRun whose cancellation is requested leaves every child Run and every child
    * WorkflowRun that has not finished told to stop, and creates none.
    */
  lemma CancellationReachesChildren(c: Config, ws: seq<World>, es: seq<Event>, n: nat)
    requires Behaviour(c, ws, es) && n < |es| && es[n].Reconciled? && ws[n].cancelRequested
    ensures AllTold(ws[n + 1].runs, ws[n + 1].calls)
    ensures ws[n + 1].runs.Keys == ws[n].runs.Keys && ws[n + 1].calls.Keys == ws[n].calls.Keys
  {
    StepOf(c, ws, es, n);
    hide Reconcile, Behaviour;
    ReconcileTellsAll(c, ws[n], es[n].names, es[n].rejected, es[n].accept);
  }

  /** Once its children have finished, the next reconcile of a cancelled WorkflowRun that is still open ends it. */
  lemma CancellationEnds(c: Config, ws: seq<World>, es: seq<Event>, n: nat)
    requires Behaviour(c, ws, es) && n < |es| && es[n].Reconciled? && ws[n].cancelRequested
    requires Quiet(ws[n].runs, ws[n].calls) && !ws[n].status.phase.Terminal()
    ensures ws[n + 1].status.phase.WorkflowCancelled?
  {
    StepOf(c, ws, es, n);
    hide Behaviour, JobsDerived, Targets, StartAll, InitialJobStatuses, Acceptable;
    Ends.CancelledPlansNothing(c, ws[n].(status := Derive(c, ws[n])), es[n].names);
  }

  /** Without a request no child is told to stop: those that exist are left as they are. */
  lemma ChildrenLeftAlone(c: Config, ws: seq<World>, es: seq<Event>, n: nat)
    requires Behaviour(c, ws, es) && n < |es| && es[n].Reconciled? && !ws[n].cancelRequested
    ensures forall k :: k in ws[n].runs ==> k in ws[n + 1].runs && ws[n + 1].runs[k] == ws[n].runs[k]
    ensures forall m :: m in ws[n].calls ==> m in ws[n + 1].calls && ws[n + 1].calls[m] == ws[n].calls[m]
  {
    StepOf(c, ws, es, n);
    var d := ws[n].(status := Derive(c, ws[n]));
    hide Behaviour, Derive, Targets, StartAll, InitialJobStatuses, Acceptable;
    if PlanFor(c, d, es[n].names).Start? {
      StartAllAdds(c, d, PlanFor(c, d, es[n].names).targets, es[n].rejected);
    }
  }

  lemma StartOneAdds(c: Config, w: World, t: Target, rejected: set<string>)
    requires Startable(c, w, t)
    ensures var after := StartOne(c, w, t, rejected);
            && (forall k :: k in w.runs ==> k in after.runs && after.runs[k] == w.runs[k])
            && (forall m :: m in w.calls ==> m in after.calls && after.calls[m] == w.calls[m])
  {
    hide RecordStepRun, RecordStepFailure, TargetKey;
  }

  lemma {:induction false} StartAllAdds(c: Config, w: World, targets: seq<Target>, rejected: set<string>)
    ensures var after := StartAll(c, w, targets, rejected);
            && (forall k :: k in w.runs ==> k in after.runs && after.runs[k] == w.runs[k])
            && (forall m :: m in w.calls ==> m in after.calls && after.calls[m] == w.calls[m])
    decreases |targets|
  {
    hide StartOne;
    if targets != [] && Startable(c, w, targets[0]) {
      StartOneAdds(c, w, targets[0], rejected);
      StartAllAdds(c, StartOne(c, w, targets[0], rejected), targets[1..], rejected);
    }
  }

  // ---- starting -------------------------------------------------------------

  /** Two worlds agree on a job: its status, its child Runs and its child WorkflowRun. */
  ghost predicate AgreeOn(c: Config, a: World, b: World, job: string) {
    && a.status.jobs.Some? && b.status.jobs.Some? && job in a.status.jobs.value && job in b.status.jobs.value
    && a.status.jobs.value[job] == b.status.jobs.value[job]
    && (forall k :: k in a.runs && k.job == job ==> k in b.runs && a.runs[k] == b.runs[k])
    && (forall k :: k in b.runs && k.job == job ==> k in a.runs)
    && (c.callName(job) in a.calls <==> c.callName(job) in b.calls)
    && (c.callName(job) in a.calls ==> a.calls[c.callName(job)] == b.calls[c.callName(job)])
  }

  lemma AgreeTwice(c: Config, a: World, b: World, d: World, job: string)
    requires AgreeOn(c, a, b, job) && AgreeOn(c, b, d, job)
    ensures AgreeOn(c, a, d, job)
  {
  }

  lemma OtherJobUntouched(c: Config, w: World, t: Target, rejected: set<string>, job: string)
    requires NamesDistinct(c) && Startable(c, w, t) && job in w.status.jobs.value && job != t.job
    ensures AgreeOn(c, w, StartOne(c, w, t, rejected), job)
  {
    hide RecordStepRun, RecordStepFailure;
    assert c.callName(job) != c.callName(t.job);
  }

  lemma SameStart(c: Config, a: World, b: World, t: Target, rejected: set<string>)
    requires AgreeOn(c, a, b, t.job) && Startable(c, a, t)
    ensures Startable(c, b, t) && AgreeOn(c, StartOne(c, a, t, rejected), StartOne(c, b, t, rejected), t.job)
  {
    if t.StepTarget? {
      SameStepStart(c, a, b, t, rejected);
    } else {
      SameCallStart(c, a, b, t, rejected);
    }
  }

  lemma SameCallStart(c: Config, a: World, b: World, t: Target, rejected: set<string>)
    requires AgreeOn(c, a, b, t.job) && Startable(c, a, t) && t.CallTarget?
    ensures Startable(c, b, t) && AgreeOn(c, StartOne(c, a, t, rejected), StartOne(c, b, t, rejected), t.job)
  {
  }

  lemma SameStepStart(c: Config, a: World, b: World, t: Target, rejected: set<string>)
    requires AgreeOn(c, a, b, t.job) && Startable(c, a, t) && t.StepTarget?
    ensures Startable(c, b, t) && AgreeOn(c, StartOne(c, a, t, rejected), StartOne(c, b, t, rejected), t.job)
  {
    hide RecordStepRun, RecordStepFailure, TargetKey;
    SameKey(a.status.jobs.value, b.status.jobs.value, t);
    var key := TargetKey(a.status.jobs.value, t);
    var ra := if key in a.runs then a.runs[key] else NewRun(c.runName(key));
    var x, y := StartOne(c, a, t, rejected), StartOne(c, b, t, rejected);
    var failed := t.job in rejected && !(t.actionStepIndex == 0 && key in a.runs);
    assert x.runs == if failed then a.runs else a.runs[key := ra];
    assert y.runs == if failed then b.runs else b.runs[key := ra];
    var status := x.status.jobs.value[t.job];
    assert y.status.jobs.value[t.job] == status;
    hide StartOne, Startable;
    StillAgree(c, a, b, x, y, t.job, key, ra, failed);
  }

  lemma StillAgree(c: Config, a: World, b: World, x: World, y: World, job: string, key: StepKey, run: Run, same: bool)
    requires AgreeOn(c, a, b, job) && x.calls == a.calls && y.calls == b.calls
    requires x.status.jobs.Some? && y.status.jobs.Some? && job in x.status.jobs.value && job in y.status.jobs.value
    requires x.status.jobs.value[job] == y.status.jobs.value[job]
    requires x.runs == if same then a.runs else a.runs[key := run]
    requires y.runs == if same then b.runs else b.runs[key := run]
    ensures AgreeOn(c, x, y, job)
  {
  }

  lemma SameKey(a: JobStatuses, b: JobStatuses, t: Target)
    requires t.StepTarget? && t.job in a && t.job in b && a[t.job] == b[t.job]
    requires t.stepIndex < |a[t.job].steps| && t.actionStepIndex <= |a[t.job].steps[t.stepIndex].actionSteps|
    ensures TargetKey(a, t) == TargetKey(b, t) && TargetKey(a, t).job == t.job
  {
  }

  lemma {:induction false} UntargetedUntouched(
      c: Config, w: World, targets: seq<Target>, rejected: set<string>, job: string)
    requires NamesDistinct(c) && w.status.jobs.Some? && job in w.status.jobs.value && Stalls.NoTarget(targets, job)
    ensures AgreeOn(c, w, StartAll(c, w, targets, rejected), job)
    decreases |targets|
  {
    hide NamesDistinct, StartOne, AgreeOn;
    AgreeSelf(c, w, job);
    if targets != [] && Startable(c, w, targets[0]) {
      var next := StartOne(c, w, targets[0], rejected);
      OtherJobUntouched(c, w, targets[0], rejected, job);
      AgreeMeans(c, w, next, job);
      UntargetedUntouched(c, next, targets[1..], rejected, job);
      AgreeTwice(c, w, next, StartAll(c, next, targets[1..], rejected), job);
    }
  }

  lemma AgreeSelf(c: Config, w: World, job: string)
    requires w.status.jobs.Some? && job in w.status.jobs.value
    ensures AgreeOn(c, w, w, job)
  {
  }

  lemma AgreeMeans(c: Config, a: World, b: World, job: string)
    requires AgreeOn(c, a, b, job)
    ensures b.status.jobs.Some? && job in b.status.jobs.value
  {
  }

  /** Of distinct jobs' targets each has the effect it would have alone. */
  lemma {:induction false} TargetStarted(
      c: Config, w: World, targets: seq<Target>, rejected: set<string>, i: nat)
    requires NamesDistinct(c) && i < |targets| && DistinctJobs(targets) && Startable(c, w, targets[i])
    requires forall j :: 0 <= j < |targets| ==> Startable(c, w, targets[j])
    ensures AgreeOn(c, StartOne(c, w, targets[i], rejected), StartAll(c, w, targets, rejected), targets[i].job)
    decreases |targets|
  {
    var first, rest := targets[0], targets[1..];
    var next := StartOne(c, w, first, rejected);
    forall j | 0 <= j < |rest| ensures rest[j].job != first.job && Startable(c, next, rest[j]) {
      assert rest[j] == targets[j + 1];
      OtherJobUntouched(c, w, first, rejected, rest[j].job);
      SameStart(c, w, next, rest[j], rejected);
    }
    hide NamesDistinct, StartOne, AgreeOn;
    if i == 0 {
      StartedThere(c, w, first, rejected);
      UntargetedUntouched(c, next, rest, rejected, first.job);
    } else {
      var t := targets[i];
      assert rest[i - 1] == t;
      TargetStarted(c, next, rest, rejected, i - 1);
      OtherJobUntouched(c, w, first, rejected, t.job);
      SameStart(c, w, next, t, rejected);
      var now, later := StartOne(c, w, t, rejected), StartOne(c, next, t, rejected);
      AgreeTwice(c, now, later, StartAll(c, next, rest, rejected), t.job);
    }
  }

  lemma StartedThere(c: Config, w: World, t: Target, rejected: set<string>)
    requires Startable(c, w, t)
    ensures StartOne(c, w, t, rejected).status.jobs.Some? && t.job in StartOne(c, w, t, rejected).status.jobs.value
  {
    hide RecordStepRun, RecordStepFailure, TargetKey;
  }

  // ---- what is due is started -----------------------------------------------

  /** The job has started, or may: every job it needs has succeeded. */
  ghost predicate MayGoOn(c: Config, jobs: JobStatuses, job: string)
    requires job in c.jobs && job in jobs
  {
    || jobs[job].phase == JobRunning
    || ((jobs[job].phase == JobPending || jobs[job].phase == JobWaiting)
        && forall d :: d in c.jobs[job].needs ==> d in jobs && jobs[d].phase == JobSucceeded)
  }

  /** It is the turn of this step, or of the Action-local step before a, and it has no Run yet. */
  ghost predicate StepIsDue(c: Config, jobs: JobStatuses, job: string, i: nat, a: nat) {
    && job in c.jobs && job in jobs && c.jobs[job].uses == "" && MayGoOn(c, jobs, job)
    && i < |jobs[job].steps| == |c.jobs[job].steps|
    && (forall j :: 0 <= j < i ==> jobs[job].steps[j].phase == StepSucceeded)
    && var s := jobs[job].steps[i];
       if c.jobs[job].steps[i].uses == "" then a == 0 && s.phase == StepPending && s.runName == ""
       else
         && s.phase != StepSucceeded && s.phase != StepFailed && 0 < a <= |s.actionSteps|
         && s.actionSteps[a - 1].phase == StepPending && s.actionSteps[a - 1].runName == ""
         && forall b :: 0 <= b < a - 1 ==> s.actionSteps[b].phase == StepSucceeded
  }

  ghost predicate CallIsDue(c: Config, jobs: JobStatuses, job: string) {
    && job in c.jobs && job in jobs && c.jobs[job].uses != "" && MayGoOn(c, jobs, job)
    && jobs[job].phase != JobRunning && jobs[job].workflowRunName == ""
  }

  lemma FirstActionIs(inner: seq<ActionStepStatus>, a: nat)
    requires a < |inner| && !inner[a].phase.StepSucceeded?
    requires forall b :: 0 <= b < a ==> inner[b].phase.StepSucceeded?
    ensures FirstUnsucceededAction(inner) == a
  {
    var f := FirstUnsucceededAction(inner);
    assert !(f < a) && !(a < f);
  }

  lemma ReadyMayGoOn(c: Config, jobs: JobStatuses, job: string)
    requires job in c.jobs && job in jobs && forall d :: d in jobs[job].pre <==> d in c.jobs[job].needs
    ensures MayGoOn(c, jobs, job) <==> jobs[job].phase.JobRunning? || JobReadyToStart(jobs[job], jobs)
  {
    if JobReadyToStart(jobs[job], jobs) {
      forall d | d in c.jobs[job].needs ensures d in jobs && jobs[d].phase == JobSucceeded {
        assert d in jobs[job].pre;
        var i :| 0 <= i < |jobs[job].pre| && jobs[job].pre[i] == d;
      }
    }
  }

  /** The planner picks exactly the step that is due. */
  lemma DueIsTarget(c: Config, jobs: JobStatuses, job: string, i: nat, a: nat)
    requires job in c.jobs && job in jobs && forall d :: d in jobs[job].pre <==> d in c.jobs[job].needs
    ensures StepTargetFor(c, jobs, job) == Some(StepTarget(job, i, a)) <==> StepIsDue(c, jobs, job, i, a)
    ensures CallTargetFor(c, jobs, job) == Some(CallTarget(job)) <==> CallIsDue(c, jobs, job)
  {
    ReadyMayGoOn(c, jobs, job);
    hide MayGoOn, JobReadyToStart;
    if StepIsDue(c, jobs, job, i, a) {
      Stalls.FirstIs(jobs[job].steps, i);
      if a > 0 {
        FirstActionIs(jobs[job].steps[i].actionSteps, a - 1);
      }
    }
  }

  lemma {:induction false} StepIsPlanned(c: Config, jobs: JobStatuses, names: seq<string>, job: string)
    requires StepTargetFor(c, jobs, job).Some? && job in names
    ensures StepTargetFor(c, jobs, job).value in RunnableStepTargets(c, jobs, names)
  {
    if names[0] != job {
      StepIsPlanned(c, jobs, names[1..], job);
    }
  }

  /** The status and the children of the job after the reconcile: those of starting this one target. */
  lemma PlannedTargetStarted(
      c: Config, d: World, names: seq<string>, rejected: set<string>, t: Target)
    requires NamesDistinct(c) && Enumerates(names, c.jobs.Keys) && d.status.jobs.Some? && t.job in c.jobs
    requires Ready(c, d.status.jobs.value, t)
    ensures Startable(c, d, t)
    ensures AgreeOn(c, StartOne(c, d, t, rejected),
                    StartAll(c, d, Targets(c, d.status.jobs.value, names), rejected), t.job)
  {
    var jobs := d.status.jobs.value;
    var targets := Targets(c, jobs, names);
    TargetsReady(c, jobs, names);
    Ends.ReadyIsStartable(c, d, t);
    hide StartOne, StartAll, AgreeOn, NamesDistinct, StepTargetFor, CallTargetFor, Startable;
    if t.StepTarget? {
      StepIsPlanned(c, jobs, names, t.job);
    } else {
      Ends.CallIsPlanned(c, jobs, names, t.job);
    }
    assert t in targets;
    var i :| 0 <= i < |targets| && targets[i] == t;
    hide Targets;
    forall j | 0 <= j < |targets| ensures Startable(c, d, targets[j]) {
      assert Ready(c, jobs, targets[j]);
      Ends.ReadyIsStartable(c, d, targets[j]);
    }
    TargetStarted(c, d, targets, rejected, i);
  }

  lemma PlanStarts(c: Config, d: World, names: seq<string>, t: Target)
    requires Enumerates(names, c.jobs.Keys) && d.status.jobs.Some? && !d.cancelRequested && !d.status.phase.Terminal()
    requires t.job in c.jobs && Ready(c, d.status.jobs.value, t)
    ensures PlanFor(c, d, names) == Start(Targets(c, d.status.jobs.value, names))
  {
    hide StepTargetFor, CallTargetFor;
    if t.StepTarget? {
      StepIsPlanned(c, d.status.jobs.value, names, t.job);
    } else {
      Ends.CallIsPlanned(c, d.status.jobs.value, names, t.job);
    }
  }

  lemma ReconcileStarts(
      c: Config, w: World, names: seq<string>, rejected: set<string>, accept: bool, t: Target)
    requires NamesDistinct(c) && Enumerates(names, c.jobs.Keys) && !w.cancelRequested && t.job in c.jobs
    requires var d := Derive(c, w); d.jobs.Some? && !d.phase.Terminal() && Ready(c, d.jobs.value, t)
    ensures var d := w.(status := Derive(c, w));
            && Startable(c, d, t)
            && AgreeOn(c, StartOne(c, d, t, rejected), Reconcile(c, w, names, rejected, accept), t.job)
  {
    hide Derive, PlanFor, Targets, StartAll, StartOne, AgreeOn, NamesDistinct, Ready, Startable, Enumerates;
    var d := w.(status := Derive(c, w));
    PlanStarts(c, d, names, t);
    PlannedTargetStarted(c, d, names, rejected, t);
  }

  lemma DerivedPre(c: Config, w: World, job: string)
    requires NamesDistinct(c) && Inv(c, w) && w.status.jobs.Some? && job in c.jobs
    ensures var d := w.(status := Derive(c, w));
            && Inv(c, d) && d.status.jobs.Some? && job in d.status.jobs.value
            && forall x :: x in d.status.jobs.value[job].pre <==> x in c.jobs[job].needs
  {
    hide Derive, NamesDistinct;
    DeriveOk(c, w);
    var d := w.(status := Derive(c, w));
    assert JobOk(c, job, d.status.jobs.value, d.runs, d.calls);
  }

  lemma DueKeyIsFree(c: Config, d: World, t: Target)
    requires NamesDistinct(c) && Inv(c, d) && d.status.jobs.Some? && t.StepTarget? && t.job in c.jobs
    requires Ready(c, d.status.jobs.value, t) && Startable(c, d, t)
    ensures TargetKey(d.status.jobs.value, t) !in d.runs
  {
    var jobs := d.status.jobs.value;
    assert JobOk(c, t.job, jobs, d.runs, d.calls);
    ReadyAtFrontier(c, jobs, d.runs, t);
    FrontierKeyFree(c, jobs, d.runs, t);
  }

  /** How one target is recorded, and the child it gets. */
  lemma StepStartIs(c: Config, d: World, t: Target, rejected: set<string>, after: World)
    requires Startable(c, d, t) && t.StepTarget? && TargetKey(d.status.jobs.value, t) !in d.runs
    requires AgreeOn(c, StartOne(c, d, t, rejected), after, t.job)
    ensures var key := TargetKey(d.status.jobs.value, t);
            && after.status.jobs.Some? && t.job in after.status.jobs.value
            && (key in after.runs <==> t.job !in rejected)
            && (key in after.runs ==> after.runs[key] == Run(c.runName(key), RunPending, map[], false))
            && Recorded(after.status.jobs.value[t.job], t.stepIndex, t.actionStepIndex,
                        if t.job in rejected then None else Some(c.runName(key)))
  {
  }

  /** The slot of a step that was started, with the name of its Run, or failed before it had one. */
  ghost predicate Recorded(status: JobStatus, i: nat, a: nat, run: Option<string>) {
    && status.phase == JobRunning && i < |status.steps| && a <= |status.steps[i].actionSteps|
    && if run.None? then status.steps[i].phase == StepFailed
       else
         && status.steps[i].phase == StepRunning
         && if a == 0 then status.steps[i].runName == run.value
            else
              && status.steps[i].actionSteps[a - 1].phase == StepRunning
              && status.steps[i].actionSteps[a - 1].runName == run.value
  }

  /**
    * A reconcile starts every step that is due in the status it derives: its Run is created, new, under
    * its own name, and recorded; or, when the step is rejected, it is recorded as failed without one.
    */
  lemma DueStepIsStarted(c: Config, ws: seq<World>, es: seq<Event>, n: nat, job: string, i: nat, a: nat)
    requires NamesDistinct(c) && Behaviour(c, ws, es) && n < |es| && es[n].Reconciled?
    requires !ws[n].cancelRequested && ws[n].status.jobs.Some? && job in c.jobs
    requires var d := Derive(c, ws[n]);
             d.jobs.Some? && !d.phase.Terminal() && StepIsDue(c, d.jobs.value, job, i, a)
    ensures var key := TargetKey(Derive(c, ws[n]).jobs.value, StepTarget(job, i, a));
            && key !in ws[n].runs
            && (key in ws[n + 1].runs <==> job !in es[n].rejected)
            && (key in ws[n + 1].runs ==> ws[n + 1].runs[key] == Run(c.runName(key), RunPending, map[], false))
    ensures ws[n + 1].status.jobs.Some? && job in ws[n + 1].status.jobs.value
    ensures var key := TargetKey(Derive(c, ws[n]).jobs.value, StepTarget(job, i, a));
            Recorded(ws[n + 1].status.jobs.value[job], i, a,
                     if job in es[n].rejected then None else Some(c.runName(key)))
  {
    StepOf(c, ws, es, n);
    var w, t := ws[n], StepTarget(job, i, a);
    BehaviourKeepsInv(c, ws, es, n);
    hide Behaviour, Inv, NamesDistinct, Derive, Reconcile, AgreeOn, Startable, StartOne, Recorded;
    DerivedPre(c, w, job);
    var d := w.(status := Derive(c, w));
    DueIsTarget(c, d.status.jobs.value, job, i, a);
    ReconcileStarts(c, w, es[n].names, es[n].rejected, es[n].accept, t);
    DueKeyIsFree(c, d, t);
    StepStartIs(c, d, t, es[n].rejected, ws[n + 1]);
  }

  lemma CallStartIs(c: Config, d: World, job: string, rejected: set<string>, after: World)
    requires Startable(c, d, CallTarget(job)) && AgreeOn(c, StartOne(c, d, CallTarget(job), rejected), after, job)
    requires c.callName(job) !in d.calls
    ensures var name := c.callName(job);
            && after.status.jobs.Some? && job in after.status.jobs.value
            && (name in after.calls <==> job !in rejected)
            && (name in after.calls ==> after.calls[name] == ChildWorkflow(WorkflowUnset, None, false))
            && var s := after.status.jobs.value[job];
               if job in rejected then s.phase == JobFailed else s.phase == JobRunning && s.workflowRunName == name
  {
  }

  lemma DueCallIsFree(c: Config, d: World, job: string)
    requires NamesDistinct(c) && Inv(c, d) && d.status.jobs.Some? && CallIsDue(c, d.status.jobs.value, job)
    ensures c.callName(job) !in d.calls
  {
    assert JobOk(c, job, d.status.jobs.value, d.runs, d.calls);
  }

  /** Likewise every call that is due: its child WorkflowRun is created and recorded, or the job fails without one. */
  lemma DueCallIsStarted(c: Config, ws: seq<World>, es: seq<Event>, n: nat, job: string)
    requires NamesDistinct(c) && Behaviour(c, ws, es) && n < |es| && es[n].Reconciled?
    requires !ws[n].cancelRequested && ws[n].status.jobs.Some?
    requires var d := Derive(c, ws[n]); d.jobs.Some? && !d.phase.Terminal() && CallIsDue(c, d.jobs.value, job)
    ensures var name := c.callName(job);
            && name !in ws[n].calls && (name in ws[n + 1].calls <==> job !in es[n].rejected)
            && (name in ws[n + 1].calls ==> ws[n + 1].calls[name] == ChildWorkflow(WorkflowUnset, None, false))
    ensures ws[n + 1].status.jobs.Some? && job in ws[n + 1].status.jobs.value
    ensures var s := ws[n + 1].status.jobs.value[job];
            if job in es[n].rejected then s.phase == JobFailed
            else s.phase == JobRunning && s.workflowRunName == c.callName(job)
  {
    StepOf(c, ws, es, n);
    var w, t := ws[n], CallTarget(job);
    BehaviourKeepsInv(c, ws, es, n);
    hide Behaviour, Inv, NamesDistinct, Derive, Reconcile, AgreeOn, Startable, StartOne;
    DerivedPre(c, w, job);
    var d := w.(status := Derive(c, w));
    DueIsTarget(c, d.status.jobs.value, job, 0, 0);
    ReconcileStarts(c, w, es[n].names, es[n].rejected, es[n].accept, t);
    DueCallIsFree(c, d, job);
    CallStartIs(c, d, job, es[n].rejected, ws[n + 1]);
  }

  // ---- initialization -------------------------------------------------------

  /**
    * The first reconcile accepts a WorkflowRun exactly when it is well formed and its Actions could be
    * read: every job is then there with its needs and all its steps untouched; otherwise it has failed.
    */
  lemma InitializedIff(c: Config, w: World, names: seq<string>, rejected: set<string>, accept: bool)
    requires w.status.jobs.None? && !w.cancelRequested && !w.status.phase.Terminal()
    ensures var after := Reconcile(c, w, names, rejected, accept);
            && after.runs == w.runs && after.calls == w.calls
            && if accept && Acceptable(c) then
                 && after.status.phase == WorkflowPending && after.status.jobs.Some?
                 && after.status.jobs.value.Keys == c.jobs.Keys
                 && forall job :: job in c.jobs ==> FreshJob(c, job, after.status.jobs.value[job])
               else after.status.phase == WorkflowFailed && after.status.jobs.None?
  {
    hide Acceptable;
    forall job | job in c.jobs ensures FreshJob(c, job, InitialJobStatuses(c)[job]) {
      FreshIsFresh(c, job);
    }
  }

  /** Waiting for its needs, if any, with every step and Action-local step as its specification names it. */
  ghost predicate FreshJob(c: Config, job: string, s: JobStatus)
    requires job in c.jobs
  {
    var spec := c.jobs[job];
    && s.phase == (if spec.needs == [] then JobPending else JobWaiting)
    && s.pre == spec.needs && s.workflowRunName == "" && s.outputs == map[] && |s.steps| == |spec.steps|
    && forall i :: 0 <= i < |spec.steps| ==>
         s.steps[i].name == spec.steps[i].name && Untouched(s.steps[i]) && s.steps[i].outputs == map[]
         && InnerNamed(s.steps[i].actionSteps,
                       if spec.steps[i].uses != "" && ActionKey(job, spec.steps[i].name) in c.actions
                       then c.actions[ActionKey(job, spec.steps[i].name)].steps else [])
  }

  lemma FreshIsFresh(c: Config, job: string)
    requires job in c.jobs
    ensures FreshJob(c, job, InitialJobStatuses(c)[job])
  {
  }
}
