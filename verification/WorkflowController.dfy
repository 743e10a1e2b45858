/** Planning and applying as the controller runs them: scans over steps and jobs, records updated in place. */
module WorkflowController {
  import opened Common
  import opened WorkflowStatus
  import opened WorkflowDerive
  import opened WorkflowPlan
  import opened WorkflowResources

  // ---- planning -------------------------------------------------------------

  /** The first step that has not succeeded, unless it failed. */
  method NextRunnableWorkflowStep(steps: seq<StepStatus>) returns (index: nat, found: bool)
    ensures found <==> FirstUnsucceeded(steps) < |steps| && !steps[FirstUnsucceeded(steps)].phase.StepFailed?
    ensures found ==> index == FirstUnsucceeded(steps)
  {
    for i := 0 to |steps|
      invariant forall j :: 0 <= j < i ==> steps[j].phase.StepSucceeded?
    {
      if steps[i].phase.StepSucceeded? {
        continue;
      }
      if steps[i].phase.StepFailed? {
        return 0, false;
      }
      return i, true;
    }
    return 0, false;
  }

  /** The first Action-local step that has not succeeded, if it is pending. */
  method NextRunnableActionStep(steps: seq<ActionStepStatus>) returns (index: nat, found: bool)
    ensures found <==>
            && FirstUnsucceededAction(steps) < |steps|
            && steps[FirstUnsucceededAction(steps)].phase.StepPending?
    ensures found ==> index == FirstUnsucceededAction(steps)
  {
    for i := 0 to |steps|
      invariant forall j :: 0 <= j < i ==> steps[j].phase.StepSucceeded?
    {
      if steps[i].phase.StepSucceeded? {
        continue;
      }
      if steps[i].phase.StepPending? {
        return i, true;
      }
      return 0, false;
    }
    return 0, false;
  }

  method NextStepRunTarget(job: string, spec: JobSpec, status: JobStatus) returns (target: Option<Target>)
    requires |status.steps| == |spec.steps|
    ensures target == NextStepTarget(job, spec, status)
  {
    var i, found := NextRunnableWorkflowStep(status.steps);
    if !found {
      return None;
    }
    if spec.steps[i].uses == "" {
      if !status.steps[i].phase.StepPending? || status.steps[i].runName != "" {
        return None;
      }
      return Some(StepTarget(job, i, 0));
    }
    var a, open := NextRunnableActionStep(status.steps[i].actionSteps);
    if !open || status.steps[i].actionSteps[a].runName != "" {
      return None;
    }
    return Some(StepTarget(job, i, a + 1));
  }

  method StepTargetOf(c: Config, jobs: JobStatuses, job: string) returns (target: Option<Target>)
    requires job in c.jobs
    ensures target == StepTargetFor(c, jobs, job)
  {
    hide NextStepTarget, JobReadyToStart;
    var spec := c.jobs[job];
    if job !in jobs || spec.uses != "" || |jobs[job].steps| != |spec.steps| || spec.steps == [] {
      return None;
    }
    if !jobs[job].phase.JobRunning? && !JobReadyToStart(jobs[job], jobs) {
      return None;
    }
    target := NextStepRunTarget(job, spec, jobs[job]);
  }

  method StepTargetsOf(c: Config, jobs: JobStatuses, names: seq<string>) returns (targets: seq<Target>)
    requires forall name :: name in names ==> name in c.jobs
    ensures targets == RunnableStepTargets(c, jobs, names)
  {
    hide StepTargetFor;
    targets := [];
    for i := 0 to |names|
      invariant targets + RunnableStepTargets(c, jobs, names[i..]) == RunnableStepTargets(c, jobs, names)
    {
      assert names[i..][1..] == names[i + 1..];
      var target := StepTargetOf(c, jobs, names[i]);
      if target.Some? {
        targets := targets + [target.value];
      }
    }
  }

  method CallTargetsOf(c: Config, jobs: JobStatuses, names: seq<string>) returns (targets: seq<Target>)
    requires forall name :: name in names ==> name in c.jobs
    ensures targets == RunnableCallTargets(c, jobs, names)
  {
    hide JobReadyToStart;
    targets := [];
    for i := 0 to |names|
      invariant targets + RunnableCallTargets(c, jobs, names[i..]) == RunnableCallTargets(c, jobs, names)
    {
      assert names[i..][1..] == names[i + 1..];
      var job := names[i];
      if job !in jobs || c.jobs[job].uses == "" || jobs[job].workflowRunName != ""
          || !JobReadyToStart(jobs[job], jobs) {
        continue;
      }
      targets := targets + [CallTarget(job)];
    }
  }

  /** Derives the status in place, then decides what to do next. */
  method CalculateWorkflowRunPlan(r: Resources, names: seq<string>) returns (plan: Plan)
    requires forall name :: name in names ==> name in r.c.jobs
    modifies r
    ensures r.Loaded() == old(r.Loaded()).(status := Derive(r.c, old(r.Loaded())))
    ensures plan == PlanFor(r.c, r.Loaded(), names)
  {
    r.DeriveWorkflowRunStatus();
    hide Derive, RunnableStepTargets, RunnableCallTargets;
    if !r.phase.Terminal() && !r.cancelRequested && r.jobs.None? {
      return Initialize;
    }
    if r.cancelRequested {
      var activeRuns := exists k | k in r.runs :: !r.runs[k].phase.Terminal() && !r.runs[k].terminating;
      var activeCalls := exists n | n in r.calls :: !r.calls[n].phase.Terminal() && !r.calls[n].cancelRequested;
      if activeRuns || activeCalls {
        return RequestChildCancellation;
      }
      return Nothing;
    }
    if r.phase.Terminal() || |r.c.jobs| == 0 {
      return Nothing;
    }
    var steps := StepTargetsOf(r.c, r.jobs.value, names);
    var calls := CallTargetsOf(r.c, r.jobs.value, names);
    if |steps + calls| > 0 {
      return Start(steps + calls);
    }
    return Nothing;
  }

  // ---- applying -------------------------------------------------------------

  /** One WorkflowRun and its children while targets are being started. */
  class Applier {
    const c: Config
    const cancelRequested: bool
    var phase: WorkflowPhase
    var jobs: JobStatuses
    var runs: map<StepKey, Run>
    var calls: map<string, ChildWorkflow>

    constructor (c: Config, w: World)
      requires w.status.jobs.Some?
      ensures this.c == c && Applied() == w
    {
      this.c := c;
      this.cancelRequested := w.cancelRequested;
      this.phase := w.status.phase;
      this.jobs := w.status.jobs.value;
      this.runs := w.runs;
      this.calls := w.calls;
    }

    ghost function Applied(): World
      reads this
    {
      World(Status(phase, Some(jobs)), cancelRequested, runs, calls)
    }

    method RecordStepRunInPlace(t: Target, runName: string)
      requires t.StepTarget? && t.job in jobs && TargetFits(c, jobs, t)
      modifies this`jobs, this`phase
      ensures jobs == old(jobs)[t.job := RecordStepRun(old(jobs)[t.job], t.stepIndex, t.actionStepIndex, runName)]
      ensures phase == WorkflowRunning
    {
      var status := jobs[t.job];
      status := status.(phase := JobRunning);
      var step := status.steps[t.stepIndex];
      step := step.(phase := StepRunning);
      if t.actionStepIndex == 0 {
        step := step.(runName := runName);
      } else {
        var a := t.actionStepIndex - 1;
        step := step.(actionSteps :=
            step.actionSteps[a := step.actionSteps[a].(phase := StepRunning, runName := runName)]);
      }
      status := status.(steps := status.steps[t.stepIndex := step]);
      jobs := jobs[t.job := status];
      phase := WorkflowRunning;
    }

    /** rejected: the jobs whose next target fails validation. */
    method StartTarget(t: Target, rejected: set<string>)
      requires t.job in jobs && TargetFits(c, jobs, t)
      modifies this
      ensures Applied() == StartOne(c, old(Applied()), t, rejected)
    {
      match t
      case StepTarget(job, i, a) =>
        var step := jobs[job].steps[i];
        var key := StepKey(job, step.name, if a == 0 then "" else step.actionSteps[a - 1].name);
        if job in rejected && !(a == 0 && key in runs) {
          jobs := jobs[job := jobs[job].(phase := JobRunning,
              steps := jobs[job].steps[i := step.(phase := StepFailed)])];
          phase := WorkflowRunning;
          return;
        }
        if key !in runs {
          runs := runs[key := NewRun(c.runName(key))];
        }
        RecordStepRunInPlace(t, runs[key].name);
        assert old(runs)[key := runs[key]] == runs;
      case CallTarget(job) =>
        if job in rejected {
          jobs := jobs[job := jobs[job].(phase := JobFailed)];
          phase := WorkflowRunning;
          return;
        }
        var name := c.callName(job);
        if name !in calls {
          calls := calls[name := NewCall()];
        }
        jobs := jobs[job := jobs[job].(phase := JobRunning, workflowRunName := name)];
        phase := WorkflowRunning;
        assert old(calls)[name := calls[name]] == calls;
    }

    /** Starts the planned targets one after the other until the API server fails; served is how many it takes. */
    method StartRunnableTargets(targets: seq<Target>, rejected: set<string>, served: nat) returns (ok: bool)
      requires forall k :: 0 <= k < |targets| ==> Startable(c, Applied(), targets[k])
      modifies this
      ensures ok <==> |targets| <= served
      ensures Applied() == StartAll(c, old(Applied()), if ok then targets else targets[..served], rejected)
    {
      ghost var todo := if |targets| <= served then targets else targets[..served];
      for i := 0 to |targets|
        invariant i <= |todo| && forall k :: i <= k < |targets| ==> Startable(c, Applied(), targets[k])
        invariant StartAll(c, Applied(), todo[i..], rejected) == StartAll(c, old(Applied()), todo, rejected)
      {
        if i == served {
          assert todo[i..] == [];
          return false;
        }
        ghost var before := Applied();
        assert todo[i..][1..] == todo[i + 1..] && todo[i..][0] == targets[i];
        StartTarget(targets[i], rejected);
        forall k | i < k < |targets| ensures Startable(c, Applied(), targets[k]) {
          StartableKept(c, before, targets[i], targets[k], rejected);
        }
      }
      assert todo[|targets|..] == [];
      ok := true;
    }
  }

  /** Starting one target leaves the others where they were. */
  lemma StartableKept(c: Config, w: World, t: Target, other: Target, rejected: set<string>)
    requires Startable(c, w, t) && Startable(c, w, other)
    ensures Startable(c, StartOne(c, w, t, rejected), other)
  {
  }
}
