/** A lost status patch lets a WorkflowRun fail over a running child: the smallest case. */
module WorkflowLossyFailure {
  import opened Common
  import opened WorkflowStatus
  import opened WorkflowDerive
  import opened WorkflowPlan
  import opened WorkflowLossy
  import M = WorkflowMachine
  import JobGraph
  import SkipPropagation
  import WorkflowLosses

  /** One job, which calls a reusable workflow. */
  ghost predicate SingleCall(c: Config, job: string, uses: string) {
    uses != "" && c.jobs == map[job := JobSpec("", uses, [], [], map[])]
  }

  ghost function CallJob(job: string, phase: JobPhase): JobStatuses {
    map[job := JobStatus(phase, [], "", map[], [])]
  }

  ghost function CallWorld(c: Config, job: string, phase: WorkflowPhase, jobPhase: JobPhase, created: bool): World {
    World(Status(phase, Some(CallJob(job, jobPhase))), false, map[],
          if created then map[c.callName(job) := NewCall()] else map[])
  }

  lemma LoneCallDerived(
      c: Config, job: string, uses: string, phase: WorkflowPhase, jobPhase: JobPhase, created: bool)
    requires SingleCall(c, job, uses) && (jobPhase.JobPending? || jobPhase.JobFailed?) && phase != WorkflowFailed
    ensures Derive(c, CallWorld(c, job, phase, jobPhase, created))
         == Status(if jobPhase.JobFailed? then WorkflowFailed else phase, Some(CallJob(job, jobPhase)))
  {
    var w, jobs := CallWorld(c, job, phase, jobPhase, created), CallJob(job, jobPhase);
    assert Projected(c, jobs, w.runs)[job].steps == [];
    assert Projected(c, jobs, w.runs) == jobs;
    assert ActionsDone(c, job, c.jobs[job].steps, jobs[job].steps, JobContext(jobs), 0) == jobs[job].steps;
    assert ActionsDerived(c, jobs) == jobs;
    assert JobsDerived(c, jobs, w.runs, w.calls) == jobs;
    assert !SkipPropagation.Blocked(jobs, job) by {
      SkipPropagation.BlockedStep(jobs, job);
    }
    assert SkipPropagation.Skipped(jobs) == jobs;
    assert jobs[job].phase == jobPhase;
  }

  lemma CallAcceptable(c: Config, job: string, uses: string)
    requires SingleCall(c, job, uses)
    ensures Acceptable(c)
  {
    var needs := NeedsOf(c);
    assert needs == map[job := []];
    assert forall a, b :: !JobGraph.Edge(needs, a, b);
    assert JobGraph.Topological(needs, [job]) by {
      assert forall x :: x in needs ==> x == job;
    }
    JobGraph.AcyclicIffOrdered(needs);
  }

  lemma CallInitialized(c: Config, job: string, uses: string, names: seq<string>)
    requires SingleCall(c, job, uses)
    ensures Reconcile(c, WorkflowLosses.BLANK, names, {}, true) == CallWorld(c, job, WorkflowPending, JobPending, false)
  {
    CallAcceptable(c, job, uses);
    hide Acceptable;
    assert InitialJobStatuses(c)[job].steps == [];
    assert InitialJobStatuses(c) == CallJob(job, JobPending);
  }

  lemma CallPlanned(c: Config, job: string, uses: string, names: seq<string>, created: bool)
    requires SingleCall(c, job, uses) && Enumerates(names, c.jobs.Keys)
    ensures PlanFor(c, CallWorld(c, job, WorkflowPending, JobPending, created), names) == Start([CallTarget(job)])
  {
    var jobs := CallJob(job, JobPending);
    WorkflowLosses.OnlyName(names, job);
    assert StepTargetFor(c, jobs, job) == None && CallTargetFor(c, jobs, job) == Some(CallTarget(job));
    assert RunnableStepTargets(c, jobs, names[1..]) == [] && RunnableCallTargets(c, jobs, names[1..]) == [];
    assert c.jobs != map[];
  }

  lemma CallStarted(c: Config, job: string, w: World, rejected: set<string>)
    requires w.status.jobs.Some? && job in w.status.jobs.value
    ensures StartAll(c, w, [CallTarget(job)], rejected) == StartOne(c, w, CallTarget(job), rejected)
  {
    assert [CallTarget(job)][1..] == [];
  }

  /** The child is created, and the patch that records it is lost. */
  lemma CallLost(c: Config, job: string, uses: string, names: seq<string>)
    requires SingleCall(c, job, uses) && Enumerates(names, c.jobs.Keys)
    ensures LostReconcile(c, CallWorld(c, job, WorkflowPending, JobPending, false), names, {}, 1)
         == CallWorld(c, job, WorkflowPending, JobPending, true)
  {
    var w := CallWorld(c, job, WorkflowPending, JobPending, false);
    LoneCallDerived(c, job, uses, WorkflowPending, JobPending, false);
    CallPlanned(c, job, uses, names, false);
    hide Derive, PlanFor, StartAll;
    CallStarted(c, job, w, {});
  }

  /** Meanwhile the reusable workflow was deleted: the job fails validation, although its child runs. */
  lemma CallRejected(c: Config, job: string, uses: string, names: seq<string>)
    requires SingleCall(c, job, uses) && Enumerates(names, c.jobs.Keys)
    ensures Reconcile(c, CallWorld(c, job, WorkflowPending, JobPending, true), names, {job}, true)
         == CallWorld(c, job, WorkflowRunning, JobFailed, true)
  {
    var w := CallWorld(c, job, WorkflowPending, JobPending, true);
    hide Derive, PlanFor, StartAll, StartOne, Enumerates;
    LoneCallDerived(c, job, uses, WorkflowPending, JobPending, true);
    CallPlanned(c, job, uses, names, true);
    CallStarted(c, job, w, {job});
    RejectedCall(c, job);
  }

  lemma RejectedCall(c: Config, job: string)
    ensures StartOne(c, CallWorld(c, job, WorkflowPending, JobPending, true), CallTarget(job), {job})
         == CallWorld(c, job, WorkflowRunning, JobFailed, true)
  {
    var jobs := CallJob(job, JobPending);
    assert jobs[job := jobs[job].(phase := JobFailed)] == CallJob(job, JobFailed);
  }

  lemma CallFails(c: Config, job: string, uses: string, names: seq<string>)
    requires SingleCall(c, job, uses) && Enumerates(names, c.jobs.Keys)
    ensures Reconcile(c, CallWorld(c, job, WorkflowRunning, JobFailed, true), names, {}, true)
         == CallWorld(c, job, WorkflowFailed, JobFailed, true)
  {
    LoneCallDerived(c, job, uses, WorkflowRunning, JobFailed, true);
    hide Derive;
  }

  /** Four steps, one of which loses its patch: the WorkflowRun has failed over a running child. */
  lemma LostPatchFailsEarly(
      c: Config, job: string, uses: string, names: seq<string>)
      returns (ws: seq<World>, es: seq<Event>)
    requires SingleCall(c, job, uses) && Enumerates(names, c.jobs.Keys)
    ensures Behaviour(c, ws, es) && |es| == 4
    ensures ws[4].status.phase.WorkflowFailed? && !Quiet(ws[4].runs, ws[4].calls)
  {
    hide *;
    es := [Landed(M.Reconciled(names, {}, true)), Lost(names, {}, 1),
           Landed(M.Reconciled(names, {job}, true)), Landed(M.Reconciled(names, {}, true))];
    ws := [WorkflowLosses.BLANK, CallWorld(c, job, WorkflowPending, JobPending, false),
           CallWorld(c, job, WorkflowPending, JobPending, true), CallWorld(c, job, WorkflowRunning, JobFailed, true),
           CallWorld(c, job, WorkflowFailed, JobFailed, true)];
    Reconciles(c, ws[0], names, {});
    CallInitialized(c, job, uses, names);
    Loses(c, ws[1], names);
    CallLost(c, job, uses, names);
    Reconciles(c, ws[2], names, {job});
    CallRejected(c, job, uses, names);
    Reconciles(c, ws[3], names, {});
    CallFails(c, job, uses, names);
    FourSteps(c, ws, es);
    FailedOverChild(c, job);
  }

  lemma Reconciles(c: Config, w: World, names: seq<string>, rejected: set<string>)
    requires Enumerates(names, c.jobs.Keys)
    ensures M.Initial(WorkflowLosses.BLANK)
    ensures var e := Landed(M.Reconciled(names, rejected, true));
            Enabled(c, w, e) && Step(c, w, e) == Reconcile(c, w, names, rejected, true)
  {
    hide Reconcile;
  }

  lemma Loses(c: Config, w: World, names: seq<string>)
    requires Enumerates(names, c.jobs.Keys)
    ensures var e := Lost(names, {}, 1); Enabled(c, w, e) && Step(c, w, e) == LostReconcile(c, w, names, {}, 1)
  {
    hide LostReconcile;
  }

  lemma FourSteps(c: Config, ws: seq<World>, es: seq<Event>)
    requires |ws| == 5 && |es| == 4 && M.Initial(ws[0])
    requires Enabled(c, ws[0], es[0]) && ws[1] == Step(c, ws[0], es[0])
    requires Enabled(c, ws[1], es[1]) && ws[2] == Step(c, ws[1], es[1])
    requires Enabled(c, ws[2], es[2]) && ws[3] == Step(c, ws[2], es[2])
    requires Enabled(c, ws[3], es[3]) && ws[4] == Step(c, ws[3], es[3])
    ensures Behaviour(c, ws, es)
  {
    hide Enabled, Step, M.Initial;
  }

  lemma FailedOverChild(c: Config, job: string)
    ensures var w := CallWorld(c, job, WorkflowFailed, JobFailed, true);
            w.status.phase.WorkflowFailed? && !Quiet(w.runs, w.calls)
  {
    var w := CallWorld(c, job, WorkflowFailed, JobFailed, true);
    assert c.callName(job) in w.calls && !w.calls[c.callName(job)].phase.Terminal();
  }
}
