/** What goes wrong when a status patch is lost or a listing misses a child, on the smallest WorkflowRun. */
module WorkflowLosses {
  import opened Common
  import opened WorkflowStatus
  import opened WorkflowDerive
  import opened WorkflowPlan
  import opened WorkflowInvariant
  import opened WorkflowMachine
  import JobGraph
  import SkipPropagation

  /** The jobs of the smallest WorkflowRun: one job with one inline step. */
  ghost predicate SingleStep(c: Config, job: string, step: string) {
    c.jobs == map[job := JobSpec("bash", "", [], [StepSpec(step, "", map[])], map[])]
  }

  ghost function OneJob(job: string, step: string, phase: StepPhase, runName: string): JobStatuses {
    map[job := JobStatus(JobPending, [], "", map[], [StepStatus(step, phase, runName, map[], [])])]
  }

  /** What the derivation makes of a lone Pending job whose only Run has already succeeded. */
  lemma LoneJobDerived(c: Config, job: string, step: string, s: StepPhase, runName: string, run: Run)
    requires SingleStep(c, job, step) && c.environmentOk(map[])
    requires run.phase.RunSucceeded? && run.outputs == map[] && (runName == "" || runName == run.name)
    ensures var w := World(Status(WorkflowPending, Some(OneJob(job, step, s, runName))), false,
                           map[StepKey(job, step, "") := run], map[]);
            Derive(c, w) == Status(WorkflowPending, Some(OneJob(job, step, StepSucceeded, run.name)))
  {
    var key := StepKey(job, step, "");
    var runs := map[key := run];
    var jobs := OneJob(job, step, s, runName);
    var done := OneJob(job, step, StepSucceeded, run.name);
    var projected := Projected(c, jobs, runs);
    assert !BadActionRun(c, job, step, runs);
    FindStepAt(jobs[job].steps, 0);
    var projectedStep := ProjectedStep(c, job, jobs[job].steps[0], runs);
    assert projectedStep.actionSteps == [];
    assert projectedStep == done[job].steps[0];
    assert projected[job].steps == [projectedStep];
    assert projected == done;
    assert ActionsDone(c, job, c.jobs[job].steps, done[job].steps, JobContext(done), 0) == done[job].steps;
    assert ActionsDerived(c, projected) == done;
    assert JobsDerived(c, jobs, runs, map[]) == done;
    assert !SkipPropagation.Blocked(done, job) by {
      SkipPropagation.BlockedStep(done, job);
    }
    assert SkipPropagation.Skipped(done) == done;
    assert TerminalWorkflowPhase(WorkflowPending, done) == WorkflowPending by {
      assert !done[job].phase.Terminal();
    }
  }

  /** The Run exists and the status does not know it. */
  ghost function Unrecorded(job: string, step: string, run: Run): World {
    World(Status(WorkflowPending, Some(OneJob(job, step, StepPending, ""))), false,
          map[StepKey(job, step, "") := run], map[])
  }

  /** Unfinished, although its only Run has succeeded. */
  ghost function Stalled(job: string, step: string, run: Run): World {
    World(Status(WorkflowPending, Some(OneJob(job, step, StepSucceeded, run.name))), false,
          map[StepKey(job, step, "") := run], map[])
  }

  /**
    * The atomicity of creating a child and recording it is needed: if the patch is lost and the only
    * Run succeeds meanwhile, every later reconcile leaves the WorkflowRun Pending for ever.
    */
  lemma LostPatchStallsForever(
      c: Config, job: string, step: string, run: Run, names: seq<string>, rejected: set<string>, accept: bool)
    requires SingleStep(c, job, step) && c.environmentOk(map[]) && Enumerates(names, c.jobs.Keys)
    requires run.phase.RunSucceeded? && run.outputs == map[]
    ensures Reconcile(c, Unrecorded(job, step, run), names, rejected, accept) == Stalled(job, step, run)
    ensures Reconcile(c, Stalled(job, step, run), names, rejected, accept) == Stalled(job, step, run)
  {
    LoneJobDerived(c, job, step, StepPending, "", run);
    LoneJobDerived(c, job, step, StepSucceeded, run.name, run);
    hide Derive;
    FinishedJobNotPlanned(c, job, step, run, names);
  }

  lemma FinishedJobNotPlanned(c: Config, job: string, step: string, run: Run, names: seq<string>)
    requires SingleStep(c, job, step) && Enumerates(names, c.jobs.Keys)
    ensures Targets(c, OneJob(job, step, StepSucceeded, run.name), names) == []
  {
    var done := OneJob(job, step, StepSucceeded, run.name);
    assert FirstUnsucceeded(done[job].steps) == 1;
    forall i | 0 <= i < |names| ensures names[i] == job {
      assert names[i] in c.jobs.Keys;
    }
    NothingPlanned(c, done, names, job);
  }

  lemma {:induction false} NothingPlanned(c: Config, jobs: JobStatuses, names: seq<string>, job: string)
    requires forall i :: 0 <= i < |names| ==> names[i] == job
    requires StepTargetFor(c, jobs, job).None? && CallTargetFor(c, jobs, job).None?
    ensures RunnableStepTargets(c, jobs, names) == [] && RunnableCallTargets(c, jobs, names) == []
  {
    if names != [] {
      NothingPlanned(c, jobs, names[1..], job);
    }
  }

  // ---- how the lost state comes about ---------------------------------------

  lemma OneJobAcceptable(c: Config, job: string, step: string)
    requires SingleStep(c, job, step)
    ensures Acceptable(c)
  {
    var needs := NeedsOf(c);
    assert needs == map[job := []];
    assert forall a, b :: !JobGraph.Edge(needs, a, b);
    assert JobGraph.Topological(needs, [job]) by {
      assert forall x :: x in needs ==> x == job;
    }
    JobGraph.AcyclicIffOrdered(needs);
  }

  /** Before its first reconcile, and after it. */
  const BLANK := World(Status(WorkflowUnset, None), false, map[], map[])

  ghost function Initialized(job: string, step: string): World {
    World(Status(WorkflowPending, Some(OneJob(job, step, StepPending, ""))), false, map[], map[])
  }

  /** After the second one: the only Run has been created and recorded. */
  ghost function Started(c: Config, job: string, step: string): World {
    var key := StepKey(job, step, "");
    World(Status(WorkflowRunning,
                 Some(map[job := JobStatus(JobRunning, [], "", map[],
                     [StepStatus(step, StepRunning, c.runName(key), map[], [])])])),
          false, map[key := NewRun(c.runName(key))], map[])
  }

  lemma FirstReconcile(c: Config, job: string, step: string, names: seq<string>)
    requires SingleStep(c, job, step)
    ensures Reconcile(c, BLANK, names, {}, true) == Initialized(job, step)
  {
    OneJobAcceptable(c, job, step);
    hide Acceptable;
    assert InitialJobStatuses(c)[job].steps == [FreshStep(c, job, StepSpec(step, "", map[]))];
    assert InitialJobStatuses(c) == OneJob(job, step, StepPending, "");
  }

  lemma UntouchedDerived(c: Config, job: string, step: string)
    requires SingleStep(c, job, step)
    ensures Derive(c, Initialized(job, step)) == Initialized(job, step).status
  {
    var jobs := OneJob(job, step, StepPending, "");
    FindStepAt(jobs[job].steps, 0);
    var projectedStep := ProjectedStep(c, job, jobs[job].steps[0], map[]);
    assert projectedStep.actionSteps == [];
    assert projectedStep == jobs[job].steps[0];
    assert Projected(c, jobs, map[])[job].steps == [projectedStep];
    assert Projected(c, jobs, map[]) == jobs;
    assert ActionsDone(c, job, c.jobs[job].steps, jobs[job].steps, JobContext(jobs), 0) == jobs[job].steps;
    assert ActionsDerived(c, jobs) == jobs;
    assert JobsDerived(c, jobs, map[], map[]) == jobs;
    assert !SkipPropagation.Blocked(jobs, job) by {
      SkipPropagation.BlockedStep(jobs, job);
    }
    assert SkipPropagation.Skipped(jobs) == jobs;
    assert !jobs[job].phase.Terminal();
  }

  lemma OnlyName(names: seq<string>, job: string)
    requires Enumerates(names, {job})
    ensures names == [job]
  {
    assert job in names;
    assert |names| >= 2 ==> names[0] != names[1];
    forall i | 0 <= i < |names| ensures names[i] == job {
      assert names[i] in names;
    }
  }

  lemma UntouchedPlanned(c: Config, job: string, step: string, names: seq<string>)
    requires SingleStep(c, job, step) && Enumerates(names, c.jobs.Keys)
    ensures PlanFor(c, Initialized(job, step), names) == Start([StepTarget(job, 0, 0)])
  {
    var jobs := OneJob(job, step, StepPending, "");
    OnlyName(names, job);
    assert FirstUnsucceeded(jobs[job].steps) == 0;
    assert StepTargetFor(c, jobs, job) == Some(StepTarget(job, 0, 0));
    assert RunnableStepTargets(c, jobs, names[1..]) == [] && RunnableCallTargets(c, jobs, names[1..]) == [];
    assert c.jobs != map[];
  }

  lemma SecondReconcile(c: Config, job: string, step: string, names: seq<string>)
    requires SingleStep(c, job, step) && Enumerates(names, c.jobs.Keys)
    ensures Reconcile(c, Initialized(job, step), names, {}, true) == Started(c, job, step)
    ensures LostReconcile(c, Initialized(job, step), names, {}, 1)
         == Initialized(job, step).(runs := Started(c, job, step).runs)
  {
    UntouchedDerived(c, job, step);
    UntouchedPlanned(c, job, step, names);
    hide Derive, PlanFor;
    OneStarted(c, job, step);
    assert [StepTarget(job, 0, 0)][..1] == [StepTarget(job, 0, 0)];
  }

  lemma OneStarted(c: Config, job: string, step: string)
    requires SingleStep(c, job, step)
    ensures StartAll(c, Initialized(job, step), [StepTarget(job, 0, 0)], {}) == Started(c, job, step)
  {
    var w, t := Initialized(job, step), StepTarget(job, 0, 0);
    assert [t][1..] == [];
    assert Startable(c, w, t);
    var r, s := StartOne(c, w, t, {}), Started(c, job, step);
    assert StartAll(c, w, [t], {}) == r;
    assert r.status.jobs.value[job].steps == s.status.jobs.value[job].steps;
    assert r.status.jobs.value == s.status.jobs.value;
    assert r.runs == s.runs;
  }

  /**
    * The stalled state is reached: initialize, start the Run but lose the patch, let the Run succeed,
    * reconcile. From there no reconcile changes anything.
    */
  lemma LostPatchReached(
    c: Config, job: string, step: string, run: Run, names: seq<string>, rejected: set<string>, accept: bool)
    requires SingleStep(c, job, step) && c.environmentOk(map[]) && Enumerates(names, c.jobs.Keys)
    requires run.name == c.runName(StepKey(job, step, "")) && run.phase.RunSucceeded? && run.outputs == map[]
    ensures var lost := LostReconcile(c, Reconcile(c, BLANK, names, {}, true), names, {}, 1);
            var moved := RunMoved(StepKey(job, step, ""), run);
            && Initial(BLANK) && Enabled(c, lost, moved)
            && Reconcile(c, Step(c, lost, moved), names, rejected, accept) == Stalled(job, step, run)
            && Reconcile(c, Stalled(job, step, run), names, rejected, accept) == Stalled(job, step, run)
  {
    hide *;
    FirstReconcile(c, job, step, names);
    SecondReconcile(c, job, step, names);
    LostPatchStallsForever(c, job, step, run, names, rejected, accept);
    LostRunMoved(c, job, step, run);
  }

  lemma LostRunMoved(c: Config, job: string, step: string, run: Run)
    requires run.name == c.runName(StepKey(job, step, ""))
    ensures Initial(BLANK)
    ensures var lost := Initialized(job, step).(runs := Started(c, job, step).runs);
            var moved := RunMoved(StepKey(job, step, ""), run);
            Enabled(c, lost, moved) && Step(c, lost, moved) == Unrecorded(job, step, run)
  {
    hide OneJob;
    var key := StepKey(job, step, "");
    assert Started(c, job, step).runs[key := run] == map[key := run];
  }

  // ---- a listing that misses a child ----------------------------------------

  /**
    * The Run has been created, cancellation is requested, and a reconcile lists the children from a cache
    * that does not know the Run yet: it derives Cancelled although the Run has not finished.
    */
  lemma MissedChildCancelsEarly(
      c: Config, job: string, step: string, names: seq<string>)
      returns (ws: seq<World>, es: seq<Event>)
    requires SingleStep(c, job, step) && Enumerates(names, c.jobs.Keys)
    ensures Behaviour(c, ws, es) && |es| == 3
    ensures Derive(c, ws[3].(runs := map[])).phase.WorkflowCancelled? && !Quiet(ws[3].runs, ws[3].calls)
  {
    hide *;
    FirstReconcile(c, job, step, names);
    SecondReconcile(c, job, step, names);
    var again := Reconciled(names, {}, true);
    var started := Started(c, job, step);
    es := [again, again, CancelRequested];
    ws := [BLANK, Initialized(job, step), started, started.(cancelRequested := true)];
    StepsTaken(c, ws[0], names);
    StepsTaken(c, ws[1], names);
    StepsTaken(c, ws[2], names);
    StartedIsBusy(c, job, step);
    EmptyListingCancels(c, ws[3]);
    ThreeSteps(c, ws, es);
  }

  lemma StepsTaken(c: Config, w: World, names: seq<string>)
    requires Enumerates(names, c.jobs.Keys)
    ensures var e := Reconciled(names, {}, true); Enabled(c, w, e) && Step(c, w, e) == Reconcile(c, w, names, {}, true)
    ensures Enabled(c, w, CancelRequested) && Step(c, w, CancelRequested) == w.(cancelRequested := true)
  {
    hide Reconcile;
  }

  lemma StartedIsBusy(c: Config, job: string, step: string)
    ensures Initial(BLANK) && !Started(c, job, step).status.phase.Terminal() && Started(c, job, step).calls == map[]
    ensures !Quiet(Started(c, job, step).runs, Started(c, job, step).calls)
  {
    var key := StepKey(job, step, "");
    assert key in Started(c, job, step).runs && !Started(c, job, step).runs[key].phase.Terminal();
  }

  lemma ThreeSteps(c: Config, ws: seq<World>, es: seq<Event>)
    requires |ws| == 4 && |es| == 3 && Initial(ws[0])
    requires Enabled(c, ws[0], es[0]) && ws[1] == Step(c, ws[0], es[0])
    requires Enabled(c, ws[1], es[1]) && ws[2] == Step(c, ws[1], es[1])
    requires Enabled(c, ws[2], es[2]) && ws[3] == Step(c, ws[2], es[2])
    ensures Behaviour(c, ws, es)
  {
    hide Enabled, Step, Initial;
  }

  lemma EmptyListingCancels(c: Config, w: World)
    requires w.cancelRequested && !w.status.phase.Terminal() && w.calls == map[]
    ensures Derive(c, w.(runs := map[])).phase.WorkflowCancelled?
  {
    hide JobsDerived;
  }
}
