/** The WorkflowRun protocol never gets stuck, and what it takes for that. */
module WorkflowProgress {
  import opened Common
  import opened WorkflowStatus
  import opened WorkflowDerive
  import opened WorkflowPlan
  import opened WorkflowInvariant
  import opened WorkflowStart
  import opened WorkflowMachine
  import JobGraph
  import SkipPropagation

  ghost predicate Plannable(c: Config, jobs: JobStatuses, job: string) {
    StepTargetFor(c, jobs, job).Some? || CallTargetFor(c, jobs, job).Some?
  }

  /** The unfinished child Run a job is waiting for. */
  ghost predicate WaitsForRun(job: string, runs: map<StepKey, Run>) {
    exists k :: k in runs && k.job == job && !runs[k].phase.Terminal()
  }

  lemma OpenActionCall(c: Config, job: string, spec: StepSpec, s: StepStatus, runs: map<StepKey, Run>)
    requires StepOk(c, job, spec, s, runs) && StepCurrent(job, spec, s, runs) && CallOpen(s)
    requires spec.uses != "" && !s.phase.Terminal() && !WaitsForRun(job, runs)
    ensures var a := FirstUnsucceededAction(s.actionSteps);
            a < |s.actionSteps| && FreshAction(s.actionSteps[a])
  {
    var inner := s.actionSteps;
    var a := FirstUnsucceededAction(inner);
    if a == |inner| {
      assert false;
    } else {
      assert !inner[a].phase.StepFailed?;
      var key := StepKey(job, s.name, inner[a].name);
      assert SlotOk(c, runs, key, inner[a].phase, inner[a].runName);
    }
  }

  /** A job that the derivation left Running and that waits for no Run has a next step to start. */
  lemma RunningJobPlannable(
      c: Config, job: string, jobs: JobStatuses, runs: map<StepKey, Run>, calls: map<string, ChildWorkflow>)
    requires job in c.jobs && job in jobs && JobWellFormed(c.jobs[job])
    requires JobOk(c, job, jobs, runs, calls) && JobCurrent(c, job, jobs[job], runs, calls)
    requires jobs[job].phase.JobRunning? && c.jobs[job].uses == "" && !WaitsForRun(job, runs)
    ensures StepTargetFor(c, jobs, job).Some?
  {
    var steps := jobs[job].steps;
    var i := FirstUnsucceeded(steps);
    assert i < |steps| && !steps[i].phase.StepFailed?;
    var spec, s := c.jobs[job].steps[i], steps[i];
    assert StepOk(c, job, spec, s, runs) && StepCurrent(job, spec, s, runs);
    if spec.uses == "" {
      assert !Finished(runs, StepKey(job, s.name, "")) || !s.phase.StepRunning?;
    } else {
      OpenActionCall(c, job, spec, s, runs);
    }
  }

  /** An unstarted job whose needs have all succeeded can be started. */
  lemma ReadyJobPlannable(
      c: Config, job: string, jobs: JobStatuses, runs: map<StepKey, Run>, calls: map<string, ChildWorkflow>)
    requires job in c.jobs && job in jobs && JobWellFormed(c.jobs[job]) && ActionsResolved(c, job)
    requires JobOk(c, job, jobs, runs, calls) && JobReadyToStart(jobs[job], jobs)
    ensures Plannable(c, jobs, job)
  {
    if c.jobs[job].uses == "" {
      var steps := jobs[job].steps;
      assert StepOk(c, job, c.jobs[job].steps[0], steps[0], runs) && Untouched(steps[0]);
      assert FirstUnsucceeded(steps) == 0;
      if c.jobs[job].steps[0].uses != "" {
        assert FreshAction(steps[0].actionSteps[0]);
        assert FirstUnsucceededAction(steps[0].actionSteps) == 0;
      }
    }
  }

  /** With no job Running, some unstarted job is ready: nothing it needs is unstarted, failed or skipped. */
  lemma SomeJobReady(
      c: Config, jobs: JobStatuses, runs: map<StepKey, Run>, calls: map<string, ChildWorkflow>)
      returns (job: string)
    requires Acceptable(c) && JobsOk(c, jobs, runs, calls)
    requires forall j :: j in jobs ==> SkipPropagation.Settled(jobs, j)
    requires forall j :: j in jobs ==> !jobs[j].phase.JobRunning?
    requires exists j :: j in jobs && !jobs[j].phase.Terminal()
    ensures job in c.jobs && job in jobs && JobReadyToStart(jobs[job], jobs)
  {
    hide StepsOk, PhaseMatchesSteps, CallOk, RunsKnown, CallsKnown, JobWellFormed, ActionsResolved, JobGraph.Acyclic,
         JobGraph.AllKnown;
    var open := set j | j in jobs && !jobs[j].phase.Terminal();
    var some :| some in jobs && !jobs[some].phase.Terminal();
    assert some in open;
    job := JobGraph.MinimalJob(NeedsOf(c), open);
    MinimalIsReady(c, jobs, runs, calls, open, job);
  }

  lemma MinimalIsReady(
      c: Config, jobs: JobStatuses, runs: map<StepKey, Run>, calls: map<string, ChildWorkflow>, open: set<string>,
      job: string)
    requires Acceptable(c) && JobsOk(c, jobs, runs, calls)
    requires forall j :: j in jobs ==> !jobs[j].phase.JobRunning?
    requires open == set j | j in jobs && !jobs[j].phase.Terminal()
    requires job in open && !JobGraph.Waits(NeedsOf(c), open, job) && SkipPropagation.Settled(jobs, job)
    ensures JobReadyToStart(jobs[job], jobs)
  {
    assert JobOk(c, job, jobs, runs, calls);
    hide StepsOk, PhaseMatchesSteps, CallOk, RunsKnown, CallsKnown, JobWellFormed, ActionsResolved, JobGraph.Acyclic;
    var pre := jobs[job].pre;
    forall i | 0 <= i < |pre| ensures pre[i] in jobs && jobs[pre[i]].phase.JobSucceeded? {
      assert pre[i] in pre;
      assert JobGraph.Edge(NeedsOf(c), job, pre[i]);
      assert pre[i] in NeedsOf(c);
      assert pre[i] !in open;
    }
  }

  lemma DerivedSettled(c: Config, w: World)
    requires w.status.jobs.Some? && !w.cancelRequested
    ensures var jobs := Derive(c, w).jobs.value;
            forall j :: j in jobs ==> SkipPropagation.Settled(jobs, j)
  {
    hide JobsDerived;
    var derived := JobsDerived(c, w.status.jobs.value, w.runs, w.calls);
    var jobs := SkipPropagation.Skipped(derived);
    forall j | j in jobs ensures SkipPropagation.Settled(jobs, j) {
      SkipPropagation.SkippedNotBlocked(derived, j);
      SkipPropagation.BlockedStep(jobs, j);
    }
  }

  /** The derived world of a reachable one: consistent, current, settled. */
  lemma DerivedWorld(c: Config, ws: seq<World>, es: seq<Event>, n: nat) returns (jobs: JobStatuses)
    requires NamesDistinct(c) && Behaviour(c, ws, es) && n < |ws|
    requires ws[n].status.jobs.Some? && !ws[n].cancelRequested
    ensures Derive(c, ws[n]).jobs == Some(jobs) && Acceptable(c)
    ensures JobsOk(c, jobs, ws[n].runs, ws[n].calls) && AllCurrent(c, jobs, ws[n].runs, ws[n].calls)
    ensures forall j :: j in jobs ==> SkipPropagation.Settled(jobs, j)
    ensures Derive(c, ws[n]).phase == TerminalWorkflowPhase(ws[n].status.phase, jobs)
  {
    hide JobsDerived, JobsOk, Acceptable, NamesDistinct, AllCurrent, PhaseOk;
    BehaviourKeepsInv(c, ws, es, n);
    DeriveOk(c, ws[n]);
    DerivedSettled(c, ws[n]);
    jobs := Derive(c, ws[n]).jobs.value;
  }

  lemma OpenJobPlannable(c: Config, w: World, jobs: JobStatuses, job: string)
    requires Acceptable(c) && JobsOk(c, jobs, w.runs, w.calls) && AllCurrent(c, jobs, w.runs, w.calls)
    requires job in c.jobs && jobs[job].phase.JobRunning? && Quiet(w.runs, w.calls)
    ensures Plannable(c, jobs, job)
  {
    assert JobOk(c, job, jobs, w.runs, w.calls) && JobCurrent(c, job, jobs[job], w.runs, w.calls);
    assert JobWellFormed(c.jobs[job]);
    hide StepsOk, StepsCurrent, CallsOpen, NeedsOk, RunsKnown, CallsKnown, ActionsResolved, JobGraph.Acyclic,
         JobGraph.AllKnown;
    if c.jobs[job].uses == "" {
      RunningJobPlannable(c, job, jobs, w.runs, w.calls);
    }
  }

  /** In a consistent, current and settled status with an open job, something can be planned. */
  lemma SomethingPlanned(c: Config, w: World, jobs: JobStatuses, names: seq<string>)
    requires Acceptable(c) && JobsOk(c, jobs, w.runs, w.calls) && AllCurrent(c, jobs, w.runs, w.calls)
    requires forall j :: j in jobs ==> SkipPropagation.Settled(jobs, j)
    requires exists j :: j in jobs && !jobs[j].phase.Terminal()
    requires forall x :: x in c.jobs ==> x in names
    requires Quiet(w.runs, w.calls) || forall j :: j in jobs ==> !jobs[j].phase.JobRunning?
    ensures Targets(c, jobs, names) != []
  {
    hide StepsOk, AllCurrent, JobOk, RunsKnown, CallsKnown, JobGraph.Acyclic, JobGraph.AllKnown,
         SkipPropagation.Settled, StepTargetFor, CallTargetFor, JobWellFormed, ActionsResolved;
    if running :| running in jobs && jobs[running].phase.JobRunning? {
      OpenJobPlannable(c, w, jobs, running);
      ReadyIsPlanned(c, jobs, names, running);
    } else {
      var job := SomeJobReady(c, jobs, w.runs, w.calls);
      ReadyJobPlannable(c, job, jobs, w.runs, w.calls);
      ReadyIsPlanned(c, jobs, names, job);
    }
  }

  /**
    * No deadlock. In every reachable state of an initialized WorkflowRun that is not being cancelled,
    * if the derived phase is not terminal then either some child is still at work or the plan starts one;
    * and with no job Running the plan always starts one.
    */
  lemma NeverStuck(c: Config, ws: seq<World>, es: seq<Event>, n: nat, names: seq<string>)
    requires NamesDistinct(c) && Behaviour(c, ws, es) && n < |ws| && Enumerates(names, c.jobs.Keys)
    requires ws[n].status.jobs.Some? && !ws[n].cancelRequested && c.jobs != map[]
    requires !Derive(c, ws[n]).phase.Terminal()
    ensures !Quiet(ws[n].runs, ws[n].calls) || PlanFor(c, ws[n].(status := Derive(c, ws[n])), names).Start?
    ensures (forall j :: j in Derive(c, ws[n]).jobs.value ==> !Derive(c, ws[n]).jobs.value[j].phase.JobRunning?)
              ==> PlanFor(c, ws[n].(status := Derive(c, ws[n])), names).Start?
  {
    hide JobsDerived, JobsOk, Acceptable, NamesDistinct, AllCurrent, PhaseOk, Behaviour, Derive, Targets,
         SkipPropagation.Settled, Quiet;
    var w := ws[n];
    var jobs := DerivedWorld(c, ws, es, n);
    NonemptyJobs(c, jobs, w.runs, w.calls);
    if Quiet(w.runs, w.calls) || forall j :: j in jobs ==> !jobs[j].phase.JobRunning? {
      SomethingPlanned(c, w, jobs, names);
    }
  }

  lemma NonemptyJobs(c: Config, jobs: JobStatuses, runs: map<StepKey, Run>, calls: map<string, ChildWorkflow>)
    requires JobsOk(c, jobs, runs, calls) && c.jobs != map[]
    ensures jobs != map[]
  {
    var x :| x in c.jobs;
    assert x in jobs;
  }

  // ---- what progress rests on -----------------------------------------------

  /**
    * A step that no reconcile has recorded as started: finished Runs have been projected onto it,
    * anything else still looks untouched.
    */
  ghost predicate Unrecorded(spec: StepSpec, s: StepStatus) {
    s.phase.Terminal() ||
    (if spec.uses == "" then s.phase.StepPending? && s.runName == ""
     else
       var a := FirstUnsucceededAction(s.actionSteps);
       s.phase.StepPending? && a < |s.actionSteps| && FreshAction(s.actionSteps[a]))
  }

  /**
    * A job whose start was never recorded, because the status patch after creating its child was lost,
    * is neither closed nor started again exactly when all its steps are over by the time it is looked at.
    */
  lemma UnrecordedJobStallsIff(c: Config, jobs: JobStatuses, job: string)
    requires job in c.jobs && job in jobs && JobReadyToStart(jobs[job], jobs) && c.jobs[job].uses == ""
    requires 0 < |c.jobs[job].steps| == |jobs[job].steps| && Sequential(jobs[job].steps)
    requires forall i :: 0 <= i < |jobs[job].steps| ==> Unrecorded(c.jobs[job].steps[i], jobs[job].steps[i])
    ensures JobClosed(c, job, jobs[job]) == jobs[job]
    ensures !Plannable(c, jobs, job) <==> TerminalJobPhase(jobs[job]).Some?
  {
    var steps := jobs[job].steps;
    var i := FirstUnsucceeded(steps);
    if i < |steps| {
      assert Unrecorded(c.jobs[job].steps[i], steps[i]);
      if !steps[i].phase.StepFailed? {
        forall j | 0 <= j < |steps| ensures !steps[j].phase.StepFailed? {
          if i < j {
            assert Untouched(steps[j]);
          }
        }
      }
    }
  }
}
