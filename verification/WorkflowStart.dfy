/** Starting the planned targets keeps the WorkflowRun consistent. */
module WorkflowStart {
  import opened Common
  import opened WorkflowStatus
  import opened WorkflowDerive
  import opened WorkflowPlan
  import opened WorkflowInvariant

  /** The planner picks t for its job. */
  ghost predicate Ready(c: Config, jobs: JobStatuses, t: Target) {
    match t
    case StepTarget(job, _, _) => StepTargetFor(c, jobs, job) == Some(t)
    case CallTarget(job) => CallTargetFor(c, jobs, job) == Some(t)
  }

  ghost predicate NeedsSucceeded(c: Config, jobs: JobStatuses, job: string)
    requires job in c.jobs
  {
    forall d :: d in c.jobs[job].needs ==> d in jobs && jobs[d].phase.JobSucceeded?
  }

  lemma ReadyNeeds(c: Config, jobs: JobStatuses, job: string)
    requires job in c.jobs && job in jobs && NeedsOk(c, job, jobs)
    requires jobs[job].phase.JobRunning? || JobReadyToStart(jobs[job], jobs)
    ensures NeedsSucceeded(c, jobs, job)
  {
    if !jobs[job].phase.JobRunning? {
      forall d | d in c.jobs[job].needs ensures d in jobs && jobs[d].phase.JobSucceeded? {
        assert d in jobs[job].pre;
        var i :| 0 <= i < |jobs[job].pre| && jobs[job].pre[i] == d;
      }
    }
  }

  /** Where a step target stands among the steps of its job. */
  ghost predicate AtFrontier(c: Config, t: Target, steps: seq<StepStatus>)
    requires t.StepTarget? && t.job in c.jobs
  {
    && t.stepIndex < |steps| == |c.jobs[t.job].steps|
    && (forall j :: 0 <= j < t.stepIndex ==> steps[j].phase.StepSucceeded?)
    && (forall j :: t.stepIndex < j < |steps| ==> Untouched(steps[j]))
    && !steps[t.stepIndex].phase.Terminal()
    && if c.jobs[t.job].steps[t.stepIndex].uses == ""
       then t.actionStepIndex == 0 && Untouched(steps[t.stepIndex])
       else 0 < t.actionStepIndex <= |steps[t.stepIndex].actionSteps|
            && AtInnerFrontier(steps[t.stepIndex].actionSteps, t.actionStepIndex - 1)
  }

  ghost predicate AtInnerFrontier(inner: seq<ActionStepStatus>, a: nat) {
    && a < |inner| && FreshAction(inner[a])
    && (forall b :: 0 <= b < a ==> inner[b].phase.StepSucceeded?)
    && (forall b :: a < b < |inner| ==> FreshAction(inner[b]))
  }

  lemma ReadyAtFrontier(c: Config, jobs: JobStatuses, runs: map<StepKey, Run>, t: Target)
    requires t.StepTarget? && Ready(c, jobs, t) && StepsOk(c, t.job, jobs[t.job].steps, runs)
    ensures AtFrontier(c, t, jobs[t.job].steps) && c.jobs[t.job].uses == ""
  {
    var steps := jobs[t.job].steps;
    var i := FirstUnsucceeded(steps);
    assert t.stepIndex == i;
    assert StepOk(c, t.job, c.jobs[t.job].steps[i], steps[i], runs);
    assert !steps[i].phase.StepSucceeded?;
    if c.jobs[t.job].steps[i].uses != "" {
      var inner := steps[i].actionSteps;
      assert !inner[FirstUnsucceededAction(inner)].phase.StepSucceeded?;
    }
  }

  /** The target's child Run does not exist yet, and belongs to no other step. */
  lemma FrontierKeyFree(c: Config, jobs: JobStatuses, runs: map<StepKey, Run>, t: Target)
    requires NamesDistinct(c) && t.StepTarget? && t.job in c.jobs && t.job in jobs
    requires StepsOk(c, t.job, jobs[t.job].steps, runs) && AtFrontier(c, t, jobs[t.job].steps)
    ensures TargetKey(jobs, t) !in runs && KeyKnown(c, TargetKey(jobs, t))
  {
    var spec, step := c.jobs[t.job].steps[t.stepIndex], jobs[t.job].steps[t.stepIndex];
    assert StepOk(c, t.job, spec, step, runs);
    var key := TargetKey(jobs, t);
    if spec.uses != "" {
      var a := t.actionStepIndex - 1;
      assert SlotOk(c, runs, StepKey(t.job, step.name, step.actionSteps[a].name), step.actionSteps[a].phase,
          step.actionSteps[a].runName);
      assert step.actionSteps[a].name == c.actions[ActionKey(t.job, spec.name)].steps[a];
    }
    assert KeyAt(c, key, spec);
  }

  lemma OtherStepKept(
      c: Config, job: string, spec: StepSpec, s: StepStatus, runs: map<StepKey, Run>, key: StepKey, run: Run)
    requires StepOk(c, job, spec, s, runs) && !(key.job == job && key.step == s.name)
    ensures StepOk(c, job, spec, s, runs[key := run])
  {
    var after := runs[key := run];
    forall a | 0 <= a < |s.actionSteps|
      ensures SlotOk(c, runs, StepKey(job, s.name, s.actionSteps[a].name), s.actionSteps[a].phase,
                s.actionSteps[a].runName)
         ==> SlotOk(c, after, StepKey(job, s.name, s.actionSteps[a].name), s.actionSteps[a].phase,
             s.actionSteps[a].runName)
    {
    }
  }

  lemma OtherJobKept(c: Config, job: string, steps: seq<StepStatus>, runs: map<StepKey, Run>, key: StepKey, run: Run)
    requires job in c.jobs && StepsOk(c, job, steps, runs) && key.job != job
    ensures StepsOk(c, job, steps, runs[key := run])
  {
    forall i | 0 <= i < |steps| ensures StepOk(c, job, c.jobs[job].steps[i], steps[i], runs[key := run]) {
      assert StepOk(c, job, c.jobs[job].steps[i], steps[i], runs);
      OtherStepKept(c, job, c.jobs[job].steps[i], steps[i], runs, key, run);
    }
  }

  /** The started step, with its new child Run. */
  lemma StartedStepOk(c: Config, jobs: JobStatuses, runs: map<StepKey, Run>, t: Target)
    requires NamesDistinct(c) && t.StepTarget? && t.job in c.jobs && t.job in jobs && ActionsResolved(c, t.job)
    requires StepsOk(c, t.job, jobs[t.job].steps, runs) && AtFrontier(c, t, jobs[t.job].steps)
    ensures var key := TargetKey(jobs, t);
            var r := RecordStepRun(jobs[t.job], t.stepIndex, t.actionStepIndex, c.runName(key)).steps[t.stepIndex];
            StepOk(c, t.job, c.jobs[t.job].steps[t.stepIndex], r, runs[key := NewRun(c.runName(key))])
  {
    FrontierKeyFree(c, jobs, runs, t);
    var spec, step := c.jobs[t.job].steps[t.stepIndex], jobs[t.job].steps[t.stepIndex];
    assert StepOk(c, t.job, spec, step, runs);
    var key := TargetKey(jobs, t);
    var after := runs[key := NewRun(c.runName(key))];
    var r := RecordStepRun(jobs[t.job], t.stepIndex, t.actionStepIndex, c.runName(key)).steps[t.stepIndex];
    if spec.uses != "" {
      var a := t.actionStepIndex - 1;
      StartedInnerOk(c, t.job, step.name, step.actionSteps, a, runs, c.actions[ActionKey(t.job, spec.name)].steps);
      assert InnerNamed(r.actionSteps, c.actions[ActionKey(t.job, spec.name)].steps);
    }
  }

  lemma StartedInnerOk(
      c: Config, job: string, step: string, inner: seq<ActionStepStatus>, a: nat, runs: map<StepKey, Run>,
      names: seq<string>)
    requires AtInnerFrontier(inner, a) && ActionSlotsOk(c, job, step, inner, runs)
    requires InnerNamed(inner, names) && Distinct(names)
    ensures var key := StepKey(job, step, inner[a].name);
            var r := inner[a := inner[a].(phase := StepRunning, runName := c.runName(key))];
            ActionSlotsOk(c, job, step, r, runs[key := NewRun(c.runName(key))]) && InnerSequential(r)
  {
    var key := StepKey(job, step, inner[a].name);
    var r := inner[a := inner[a].(phase := StepRunning, runName := c.runName(key))];
    var after := runs[key := NewRun(c.runName(key))];
    forall b | 0 <= b < |r| ensures SlotOk(c, after, StepKey(job, step, r[b].name), r[b].phase, r[b].runName) {
      if b != a {
        assert SlotOk(c, runs, StepKey(job, step, inner[b].name), inner[b].phase, inner[b].runName);
        assert names[a] != names[b];
      }
    }
  }

  /** A validation failure of the target leaves nothing of the call running. */
  lemma FailedStepOk(c: Config, jobs: JobStatuses, runs: map<StepKey, Run>, t: Target)
    requires NamesDistinct(c) && t.StepTarget? && t.job in c.jobs && t.job in jobs
    requires StepsOk(c, t.job, jobs[t.job].steps, runs) && AtFrontier(c, t, jobs[t.job].steps)
    ensures StepOk(c, t.job, c.jobs[t.job].steps[t.stepIndex], jobs[t.job].steps[t.stepIndex].(phase := StepFailed),
              runs)
  {
    var spec, step := c.jobs[t.job].steps[t.stepIndex], jobs[t.job].steps[t.stepIndex];
    assert StepOk(c, t.job, spec, step, runs);
    if spec.uses != "" {
      forall b | 0 <= b < |step.actionSteps| && StepKey(t.job, step.name, step.actionSteps[b].name) in runs
        ensures runs[StepKey(t.job, step.name, step.actionSteps[b].name)].phase.Terminal()
      {
        assert SlotOk(c, runs, StepKey(t.job, step.name, step.actionSteps[b].name), step.actionSteps[b].phase,
            step.actionSteps[b].runName);
      }
    }
  }

  /** Replacing the frontier step keeps the job's steps consistent. */
  lemma FrontierReplaced(
      c: Config, job: string, steps: seq<StepStatus>, i: nat, r: StepStatus, runs: map<StepKey, Run>,
      after: map<StepKey, Run>, key: StepKey)
    requires NamesDistinct(c) && job in c.jobs && StepsOk(c, job, steps, runs) && i < |steps|
    requires forall j :: 0 <= j < i ==> steps[j].phase.StepSucceeded?
    requires forall j :: i < j < |steps| ==> Untouched(steps[j])
    requires StepOk(c, job, c.jobs[job].steps[i], r, after)
    requires after == runs
               || (key.job == job && key.step == steps[i].name && key !in runs && key in after
               && after == runs[key := after[key]])
    ensures StepsOk(c, job, steps[i := r], after)
  {
    forall j | 0 <= j < |steps| ensures StepOk(c, job, c.jobs[job].steps[j], steps[i := r][j], after) {
      assert StepOk(c, job, c.jobs[job].steps[j], steps[j], runs)
          && StepOk(c, job, c.jobs[job].steps[i], steps[i], runs);
      if j != i && after != runs {
        assert steps[j].name != steps[i].name;
        OtherStepKept(c, job, c.jobs[job].steps[j], steps[j], runs, key, after[key]);
      }
    }
  }

  // ---- one target -----------------------------------------------------------

  /** Jobs other than changed are left alone, and changed neither loses nor gains an outcome others rely on. */
  ghost predicate OnlyTouches(jobs: JobStatuses, after: JobStatuses, changed: string) {
    && after.Keys == jobs.Keys && changed in jobs
    && (forall job :: job in jobs && job != changed ==> after[job] == jobs[job])
    && !jobs[changed].phase.Terminal() && after[changed].pre == jobs[changed].pre
  }

  lemma OthersNeedsKept(c: Config, job: string, jobs: JobStatuses, after: JobStatuses, changed: string)
    requires OnlyTouches(jobs, after, changed) && job in c.jobs && job in jobs && job != changed
    requires NeedsOk(c, job, jobs)
    ensures NeedsOk(c, job, after)
  {
    if jobs[job].phase.JobSkipped? {
      var d :| d in c.jobs[job].needs && d in jobs && jobs[d].phase.Blocking();
      assert after[d].phase.Blocking();
    }
  }

  /** Starting a step target, or failing it in validation. */
  lemma StepStarted(c: Config, w: World, t: Target, rejected: set<string>)
    requires NamesDistinct(c) && Acceptable(c) && w.status.jobs.Some?
    requires JobsOk(c, w.status.jobs.value, w.runs, w.calls)
    requires t.StepTarget? && Ready(c, w.status.jobs.value, t)
    ensures Startable(c, w, t)
    ensures var r := StartOne(c, w, t, rejected);
            && JobsOk(c, r.status.jobs.value, r.runs, r.calls)
            && OnlyTouches(w.status.jobs.value, r.status.jobs.value, t.job)
            && r.status.phase.WorkflowRunning? && r.status.jobs.Some?
  {
    hide RunsKnown, CallsKnown, JobWellFormed, NamesDistinct, PhaseMatchesSteps, CallOk, NeedsOk, StepsOk, Acceptable;
    var jobs := w.status.jobs.value;
    assert JobOk(c, t.job, jobs, w.runs, w.calls);
    ReadyAtFrontier(c, jobs, w.runs, t);
    FrontierKeyFree(c, jobs, w.runs, t);
    ReadyNeeds(c, jobs, t.job);
    var r := StartOne(c, w, t, rejected);
    var after := r.status.jobs.value;
    ReadyJobStarted(c, w, t, rejected);
    assert RunsKnown(c, r.runs) by {
      StillKnown(c, w.runs, r.runs, TargetKey(jobs, t));
    }
    forall job | job in c.jobs ensures JobOk(c, job, after, r.runs, r.calls) {
      if job != t.job {
        assert JobOk(c, job, jobs, w.runs, w.calls);
        OthersNeedsKept(c, job, jobs, after, t.job);
        if r.runs != w.runs {
          OtherJobKept(c, job, jobs[job].steps, w.runs, TargetKey(jobs, t), NewRun(c.runName(TargetKey(jobs, t))));
        }
      }
    }
  }

  lemma StillKnown(c: Config, runs: map<StepKey, Run>, after: map<StepKey, Run>, key: StepKey)
    requires RunsKnown(c, runs) && KeyKnown(c, key) && after.Keys <= runs.Keys + {key}
    ensures RunsKnown(c, after)
  {
  }

  /** The steps of the job whose target failed validation. */
  lemma FailedStepsOk(c: Config, jobs: JobStatuses, runs: map<StepKey, Run>, t: Target)
    requires NamesDistinct(c) && t.StepTarget? && t.job in c.jobs && t.job in jobs
    requires StepsOk(c, t.job, jobs[t.job].steps, runs) && AtFrontier(c, t, jobs[t.job].steps)
    ensures StepsOk(c, t.job, RecordStepFailure(jobs[t.job], t.stepIndex).steps, runs)
  {
    hide NamesDistinct, StepsOk, StepOk;
    FailedStepOk(c, jobs, runs, t);
    var failed := jobs[t.job].steps[t.stepIndex].(phase := StepFailed);
    FrontierReplaced(c, t.job, jobs[t.job].steps, t.stepIndex, failed, runs, runs, TargetKey(jobs, t));
  }

  /** The steps of the job whose target started. */
  lemma StartedStepsOk(c: Config, jobs: JobStatuses, runs: map<StepKey, Run>, t: Target)
    requires NamesDistinct(c) && t.StepTarget? && t.job in c.jobs && t.job in jobs && ActionsResolved(c, t.job)
    requires StepsOk(c, t.job, jobs[t.job].steps, runs) && AtFrontier(c, t, jobs[t.job].steps)
    ensures var key := TargetKey(jobs, t);
            StepsOk(c, t.job, RecordStepRun(jobs[t.job], t.stepIndex, t.actionStepIndex, c.runName(key)).steps,
                    runs[key := NewRun(c.runName(key))])
  {
    hide NamesDistinct, StepsOk, StepOk, ActionsResolved;
    var key := TargetKey(jobs, t);
    StartedStepOk(c, jobs, runs, t);
    FrontierKeyFree(c, jobs, runs, t);
    var started := RecordStepRun(jobs[t.job], t.stepIndex, t.actionStepIndex, c.runName(key)).steps[t.stepIndex];
    var after := runs[key := NewRun(c.runName(key))];
    FrontierReplaced(c, t.job, jobs[t.job].steps, t.stepIndex, started, runs, after, key);
  }

  /** The started job itself. */
  lemma ReadyJobStarted(c: Config, w: World, t: Target, rejected: set<string>)
    requires NamesDistinct(c) && Acceptable(c) && w.status.jobs.Some?
    requires t.StepTarget? && Ready(c, w.status.jobs.value, t)
    requires JobOk(c, t.job, w.status.jobs.value, w.runs, w.calls)
    requires AtFrontier(c, t, w.status.jobs.value[t.job].steps) && c.jobs[t.job].uses == ""
    requires TargetKey(w.status.jobs.value, t) !in w.runs && NeedsSucceeded(c, w.status.jobs.value, t.job)
    ensures Startable(c, w, t)
    ensures var r := StartOne(c, w, t, rejected);
            && OnlyTouches(w.status.jobs.value, r.status.jobs.value, t.job)
            && JobOk(c, t.job, r.status.jobs.value, r.runs, r.calls)
  {
    hide NamesDistinct, Acceptable, StepsOk, NeedsOk;
    var jobs := w.status.jobs.value;
    var r := StartOne(c, w, t, rejected);
    if t.job in rejected {
      FailedStepsOk(c, jobs, w.runs, t);
    } else {
      AcceptableActions(c, t.job);
      StartedStepsOk(c, jobs, w.runs, t);
    }
    StartedNeeds(c, t.job, jobs, r.status.jobs.value);
  }

  lemma AcceptableActions(c: Config, job: string)
    requires Acceptable(c) && job in c.jobs
    ensures ActionsResolved(c, job)
  {
  }

  lemma StartedNeeds(c: Config, job: string, jobs: JobStatuses, after: JobStatuses)
    requires job in c.jobs && OnlyTouches(jobs, after, job) && NeedsOk(c, job, jobs) && NeedsSucceeded(c, jobs, job)
    requires !after[job].phase.JobSkipped?
    ensures NeedsOk(c, job, after)
  {
  }

  /** Calling a reusable workflow, or failing the call in validation. */
  lemma CallStarted(c: Config, w: World, t: Target, rejected: set<string>)
    requires NamesDistinct(c) && w.status.jobs.Some?
    requires JobsOk(c, w.status.jobs.value, w.runs, w.calls)
    requires t.CallTarget? && Ready(c, w.status.jobs.value, t)
    ensures Startable(c, w, t)
    ensures var r := StartOne(c, w, t, rejected);
            && JobsOk(c, r.status.jobs.value, r.runs, r.calls)
            && OnlyTouches(w.status.jobs.value, r.status.jobs.value, t.job)
            && r.status.phase.WorkflowRunning? && r.status.jobs.Some?
  {
    hide StepsOk, NeedsOk, RunsKnown, PhaseMatchesSteps, NamesDistinct, CallOk, CallsKnown;
    var jobs := w.status.jobs.value;
    assert JobOk(c, t.job, jobs, w.runs, w.calls);
    ReadyNeeds(c, jobs, t.job);
    var r := StartOne(c, w, t, rejected);
    var after := r.status.jobs.value;
    StartedNeeds(c, t.job, jobs, after);
    CalledOk(c, w, t, rejected);
    forall job | job in c.jobs && job != t.job ensures JobOk(c, job, after, r.runs, r.calls) {
      assert JobOk(c, job, jobs, w.runs, w.calls);
      OthersNeedsKept(c, job, jobs, after, t.job);
      OtherCallKept(c, job, t.job, jobs[job], w.calls, r.calls);
    }
  }

  lemma CalledOk(c: Config, w: World, t: Target, rejected: set<string>)
    requires NamesDistinct(c) && w.status.jobs.Some? && Startable(c, w, t) && CallsKnown(c, w.calls)
    requires t.CallTarget? && Ready(c, w.status.jobs.value, t) && CallOk(c, t.job, w.status.jobs.value[t.job], w.calls)
    ensures var r := StartOne(c, w, t, rejected);
            && CallOk(c, t.job, r.status.jobs.value[t.job], r.calls)
            && CallsKnown(c, r.calls)
            && r.calls.Keys <= w.calls.Keys + {c.callName(t.job)}
            && forall n :: n in w.calls ==> n in r.calls && r.calls[n] == w.calls[n]
  {
  }

  lemma OtherCallKept(
      c: Config, job: string, called: string, status: JobStatus, calls: map<string, ChildWorkflow>,
      after: map<string, ChildWorkflow>)
    requires NamesDistinct(c) && job in c.jobs && job != called && CallOk(c, job, status, calls)
    requires after.Keys <= calls.Keys + {c.callName(called)}
    requires forall n :: n in calls ==> n in after && after[n] == calls[n]
    ensures CallOk(c, job, status, after)
  {
    assert c.callName(job) != c.callName(called);
  }

  // ---- all targets ----------------------------------------------------------

  ghost predicate DistinctJobs(targets: seq<Target>) {
    forall i, j :: 0 <= i < j < |targets| ==> targets[i].job != targets[j].job
  }

  ghost predicate AllReady(c: Config, jobs: JobStatuses, targets: seq<Target>) {
    forall i :: 0 <= i < |targets| ==> Ready(c, jobs, targets[i])
  }

  lemma ReadyKept(c: Config, jobs: JobStatuses, after: JobStatuses, changed: string, t: Target)
    requires Ready(c, jobs, t) && OnlyTouches(jobs, after, changed) && t.job != changed
    ensures Ready(c, after, t)
  {
    var status := jobs[t.job];
    if JobReadyToStart(status, jobs) {
      forall i | 0 <= i < |status.pre| ensures status.pre[i] in after && after[status.pre[i]].phase.JobSucceeded? {
        assert status.pre[i] in jobs && jobs[status.pre[i]].phase.JobSucceeded?;
      }
    }
  }

  lemma {:induction false} StartAllOk(c: Config, w: World, targets: seq<Target>, rejected: set<string>)
    requires NamesDistinct(c) && Acceptable(c) && w.status.jobs.Some?
    requires JobsOk(c, w.status.jobs.value, w.runs, w.calls)
    requires DistinctJobs(targets) && AllReady(c, w.status.jobs.value, targets)
    ensures var r := StartAll(c, w, targets, rejected);
            && r.status.jobs.Some? && JobsOk(c, r.status.jobs.value, r.runs, r.calls)
            && (targets != [] ==> r.status.phase.WorkflowRunning?)
            && r.cancelRequested == w.cancelRequested
    decreases |targets|
  {
    hide NamesDistinct, Acceptable, JobsOk;
    if targets != [] {
      var t, rest := targets[0], targets[1..];
      assert Ready(c, w.status.jobs.value, t);
      if t.StepTarget? {
        StepStarted(c, w, t, rejected);
      } else {
        CallStarted(c, w, t, rejected);
      }
      var next := StartOne(c, w, t, rejected);
      forall i | 0 <= i < |rest| ensures Ready(c, next.status.jobs.value, rest[i]) {
        assert rest[i] == targets[i + 1];
        assert Ready(c, w.status.jobs.value, targets[i + 1]) && targets[0].job != targets[i + 1].job;
        ReadyKept(c, w.status.jobs.value, next.status.jobs.value, t.job, rest[i]);
      }
      StartAllOk(c, next, rest, rejected);
    }
  }

  ghost predicate FromNames(targets: seq<Target>, names: seq<string>) {
    forall i :: 0 <= i < |targets| ==> targets[i].job in names
  }

  lemma {:induction false} StepTargetsReady(c: Config, jobs: JobStatuses, names: seq<string>)
    requires Distinct(names)
    ensures var ts := RunnableStepTargets(c, jobs, names);
            && AllReady(c, jobs, ts) && DistinctJobs(ts) && FromNames(ts, names)
            && forall i :: 0 <= i < |ts| ==> ts[i].StepTarget?
  {
    if names != [] {
      StepTargetsReady(c, jobs, names[1..]);
      assert names[0] !in names[1..];
    }
  }

  lemma {:induction false} CallTargetsReady(c: Config, jobs: JobStatuses, names: seq<string>)
    requires Distinct(names)
    ensures var ts := RunnableCallTargets(c, jobs, names);
            && AllReady(c, jobs, ts) && DistinctJobs(ts) && FromNames(ts, names)
            && forall i :: 0 <= i < |ts| ==> ts[i].CallTarget?
  {
    if names != [] {
      CallTargetsReady(c, jobs, names[1..]);
      assert names[0] !in names[1..];
    }
  }

  /** The plan names each job at most once, and every target is one the planner may pick. */
  lemma TargetsReady(c: Config, jobs: JobStatuses, names: seq<string>)
    requires Distinct(names)
    ensures AllReady(c, jobs, Targets(c, jobs, names)) && DistinctJobs(Targets(c, jobs, names))
  {
    StepTargetsReady(c, jobs, names);
    CallTargetsReady(c, jobs, names);
    var a, b := RunnableStepTargets(c, jobs, names), RunnableCallTargets(c, jobs, names);
    forall i, j | 0 <= i < |a| && 0 <= j < |b| ensures a[i].job != b[j].job {
      assert Ready(c, jobs, a[i]) && Ready(c, jobs, b[j]);
    }
  }

  /** Whatever the planner may pick for a listed job is in the plan. */
  lemma {:induction false} ReadyIsPlanned(c: Config, jobs: JobStatuses, names: seq<string>, job: string)
    requires job in names
    ensures StepTargetFor(c, jobs, job).Some? ==> RunnableStepTargets(c, jobs, names) != []
    ensures CallTargetFor(c, jobs, job).Some? ==> RunnableCallTargets(c, jobs, names) != []
  {
    if names[0] != job {
      ReadyIsPlanned(c, jobs, names[1..], job);
    }
  }
}
