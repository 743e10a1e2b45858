/** What every run of the WorkflowRun protocol guarantees. */
module WorkflowTheorems {
  import opened WorkflowStatus
  import opened WorkflowDerive
  import opened WorkflowPlan
  import opened WorkflowInvariant
  import opened WorkflowStart
  import opened WorkflowMachine

  // ---- children appear in order ---------------------------------------------

  /** The jobs needed by the child's job and the steps before the child's step have all succeeded. */
  ghost predicate InOrder(c: Config, jobs: JobStatuses, k: StepKey) {
    && k.job in c.jobs && k.job in jobs && NeedsSucceeded(c, jobs, k.job)
    && exists i :: 0 <= i < |jobs[k.job].steps| && AtStep(jobs[k.job].steps, i, k)
  }

  ghost predicate AtStep(steps: seq<StepStatus>, i: nat, k: StepKey)
    requires i < |steps|
  {
    && steps[i].name == k.step
    && (forall j :: 0 <= j < i ==> steps[j].phase.StepSucceeded?)
    && (k.action != "" ==> exists a :: 0 <= a < |steps[i].actionSteps| && AtActionStep(steps[i].actionSteps, a, k))
  }

  ghost predicate AtActionStep(inner: seq<ActionStepStatus>, a: nat, k: StepKey)
    requires a < |inner|
  {
    inner[a].name == k.action && forall b :: 0 <= b < a ==> inner[b].phase.StepSucceeded?
  }

  lemma ChildAtStep(
      c: Config, job: string, steps: seq<StepStatus>, runs: map<StepKey, Run>, k: StepKey)
      returns (i: nat)
    requires job in c.jobs && k in runs && k.job == job && KeyKnown(c, k) && StepsOk(c, job, steps, runs)
    ensures i < |steps| && AtStep(steps, i, k) && !Untouched(steps[i])
    ensures StepOk(c, job, c.jobs[job].steps[i], steps[i], runs)
  {
    i :| 0 <= i < |c.jobs[job].steps| && KeyAt(c, k, c.jobs[job].steps[i]);
    var spec, s := c.jobs[job].steps[i], steps[i];
    assert StepOk(c, job, spec, s, runs);
    if spec.uses != "" {
      var names := c.actions[ActionKey(job, s.name)].steps;
      var a :| 0 <= a < |names| && names[a] == k.action;
      assert SlotOk(c, runs, StepKey(job, s.name, s.actionSteps[a].name), s.actionSteps[a].phase,
          s.actionSteps[a].runName);
      assert !FreshAction(s.actionSteps[a]);
      assert AtActionStep(s.actionSteps, a, k);
    }
  }

  lemma ChildInOrder(
      c: Config, jobs: JobStatuses, runs: map<StepKey, Run>, calls: map<string, ChildWorkflow>, k: StepKey)
    requires Acceptable(c) && JobsOk(c, jobs, runs, calls) && k in runs
    ensures InOrder(c, jobs, k)
  {
    assert KeyKnown(c, k) && JobOk(c, k.job, jobs, runs, calls);
    var i := ChildAtStep(c, k.job, jobs[k.job].steps, runs, k);
    assert JobWellFormed(c.jobs[k.job]);
    assert !AllUntouched(jobs[k.job].steps);
  }

  /**
    * In every reachable state a child Run exists only if every needed job and every earlier step,
    * Action-local steps included, has succeeded.
    */
  lemma ChildRunsStartInOrder(c: Config, ws: seq<World>, es: seq<Event>, n: nat, k: StepKey)
    requires NamesDistinct(c) && Behaviour(c, ws, es) && n < |ws| && k in ws[n].runs
    ensures ws[n].status.jobs.Some? && InOrder(c, ws[n].status.jobs.value, k)
  {
    BehaviourKeepsInv(c, ws, es, n);
    ChildInOrder(c, ws[n].status.jobs.value, ws[n].runs, ws[n].calls, k);
  }

  // ---- at most one active child per job -------------------------------------

  lemma SettledStep(c: Config, job: string, spec: StepSpec, s: StepStatus, runs: map<StepKey, Run>, k: StepKey)
    requires StepOk(c, job, spec, s, runs) && s.phase.StepSucceeded?
    requires k in runs && k.job == job && k.step == s.name && KeyAt(c, k, spec)
    ensures runs[k].phase.Terminal()
  {
    if spec.uses != "" {
      var names := c.actions[ActionKey(job, s.name)].steps;
      var a :| 0 <= a < |names| && names[a] == k.action;
      assert SlotOk(c, runs, StepKey(job, s.name, s.actionSteps[a].name), s.actionSteps[a].phase,
          s.actionSteps[a].runName);
    }
  }

  lemma ActiveInStep(
      c: Config, job: string, spec: StepSpec, s: StepStatus, runs: map<StepKey, Run>, k: StepKey, other: StepKey)
    requires StepOk(c, job, spec, s, runs)
    requires k in runs && k.job == job && KeyAt(c, k, spec) && !runs[k].phase.Terminal()
    requires other in runs && other.job == job && KeyAt(c, other, spec) && !runs[other].phase.Terminal()
    ensures k == other
  {
    if spec.uses != "" {
      var inner := s.actionSteps;
      var names := c.actions[ActionKey(job, s.name)].steps;
      var a :| 0 <= a < |names| && names[a] == k.action;
      var b :| 0 <= b < |names| && names[b] == other.action;
      assert SlotOk(c, runs, StepKey(job, s.name, inner[a].name), inner[a].phase, inner[a].runName);
      assert SlotOk(c, runs, StepKey(job, s.name, inner[b].name), inner[b].phase, inner[b].runName);
      assert !FreshAction(inner[a]) && !FreshAction(inner[b]);
      assert !inner[a].phase.StepSucceeded? && !inner[b].phase.StepSucceeded?;
    }
  }

  lemma ActiveUnique(
      c: Config, jobs: JobStatuses, runs: map<StepKey, Run>, calls: map<string, ChildWorkflow>, k: StepKey,
      other: StepKey)
    requires JobsOk(c, jobs, runs, calls) && k in runs && other in runs && k.job == other.job
    requires !runs[k].phase.Terminal() && !runs[other].phase.Terminal()
    ensures k == other
  {
    assert KeyKnown(c, k) && KeyKnown(c, other) && JobOk(c, k.job, jobs, runs, calls);
    var steps := jobs[k.job].steps;
    var specs := c.jobs[k.job].steps;
    var i :| 0 <= i < |specs| && KeyAt(c, k, specs[i]);
    var j :| 0 <= j < |specs| && KeyAt(c, other, specs[j]);
    ActiveStep(c, k.job, steps, runs, k, i);
    ActiveStep(c, k.job, steps, runs, other, j);
    assert i == j;
    ActiveInStep(c, k.job, specs[i], steps[i], runs, k, other);
  }

  lemma ActiveStep(c: Config, job: string, steps: seq<StepStatus>, runs: map<StepKey, Run>, k: StepKey, i: nat)
    requires job in c.jobs && StepsOk(c, job, steps, runs) && i < |steps|
    requires k in runs && k.job == job && KeyAt(c, k, c.jobs[job].steps[i]) && !runs[k].phase.Terminal()
    ensures StepOk(c, job, c.jobs[job].steps[i], steps[i], runs)
    ensures !Untouched(steps[i]) && !steps[i].phase.StepSucceeded?
  {
    var spec, s := c.jobs[job].steps[i], steps[i];
    assert StepOk(c, job, spec, s, runs);
    if s.phase.StepSucceeded? {
      SettledStep(c, job, spec, s, runs, k);
    }
    if spec.uses != "" {
      var names := c.actions[ActionKey(job, s.name)].steps;
      var a :| 0 <= a < |names| && names[a] == k.action;
      assert SlotOk(c, runs, StepKey(job, s.name, s.actionSteps[a].name), s.actionSteps[a].phase,
          s.actionSteps[a].runName);
    }
  }

  /** At any time a job has at most one child Run that has not finished. */
  lemma AtMostOneActiveRunPerJob(c: Config, ws: seq<World>, es: seq<Event>, n: nat, k: StepKey, other: StepKey)
    requires NamesDistinct(c) && Behaviour(c, ws, es) && n < |ws|
    requires k in ws[n].runs && other in ws[n].runs && k.job == other.job
    requires !ws[n].runs[k].phase.Terminal() && !ws[n].runs[other].phase.Terminal()
    ensures k == other
  {
    BehaviourKeepsInv(c, ws, es, n);
    ActiveUnique(c, ws[n].status.jobs.value, ws[n].runs, ws[n].calls, k, other);
  }

  // ---- quiescence -----------------------------------------------------------

  lemma ClosedJobIsQuiet(
      c: Config, job: string, jobs: JobStatuses, runs: map<StepKey, Run>, calls: map<string, ChildWorkflow>, k: StepKey)
    requires JobsOk(c, jobs, runs, calls) && k in runs && k.job == job && job in c.jobs && jobs[job].phase.Terminal()
    requires Acceptable(c)
    ensures runs[k].phase.Terminal()
  {
    hide NeedsOk, StepOk, Acceptable;
    AcceptedJob(c, job);
    assert KeyKnown(c, k) && JobOk(c, job, jobs, runs, calls);
    var steps := jobs[job].steps;
    var i :| 0 <= i < |c.jobs[job].steps| && KeyAt(c, k, c.jobs[job].steps[i]);
    if !runs[k].phase.Terminal() {
      ActiveStep(c, job, steps, runs, k, i);
      assert SomeFailed(steps);
      var f :| 0 <= f < |steps| && steps[f].phase.StepFailed?;
      assert StepOk(c, job, c.jobs[job].steps[f], steps[f], runs);
      assert i == f;
      FailedStepIsQuiet(c, job, c.jobs[job].steps[i], steps[i], runs, k);
    }
  }

  lemma AcceptedJob(c: Config, job: string)
    requires Acceptable(c) && job in c.jobs
    ensures JobWellFormed(c.jobs[job])
  {
  }

  lemma FailedStepIsQuiet(c: Config, job: string, spec: StepSpec, s: StepStatus, runs: map<StepKey, Run>, k: StepKey)
    requires StepOk(c, job, spec, s, runs) && s.phase.StepFailed?
    requires k in runs && k.job == job && KeyAt(c, k, spec)
    ensures runs[k].phase.Terminal()
  {
    if spec.uses != "" {
      var names := c.actions[ActionKey(job, s.name)].steps;
      var a :| 0 <= a < |names| && names[a] == k.action;
      assert StepKey(job, s.name, s.actionSteps[a].name) == k;
    }
  }

  lemma TerminalIsQuiet(c: Config, w: World)
    requires Inv(c, w) && w.status.phase.Terminal()
    ensures Quiet(w.runs, w.calls)
  {
    if w.status.jobs.Some? && !w.status.phase.WorkflowCancelled? {
      var jobs := w.status.jobs.value;
      forall k | k in w.runs ensures w.runs[k].phase.Terminal() {
        assert KeyKnown(c, k);
        ClosedJobIsQuiet(c, k.job, jobs, w.runs, w.calls, k);
      }
      forall name | name in w.calls ensures w.calls[name].phase.Terminal() {
        var job :| job in c.jobs && c.callName(job) == name;
        assert JobOk(c, job, jobs, w.runs, w.calls);
      }
    }
  }

  /** A WorkflowRun that has ended has no unfinished child. */
  lemma EndedMeansQuiet(c: Config, ws: seq<World>, es: seq<Event>, n: nat)
    requires NamesDistinct(c) && Behaviour(c, ws, es) && n < |ws| && ws[n].status.phase.Terminal()
    ensures Quiet(ws[n].runs, ws[n].calls)
  {
    BehaviourKeepsInv(c, ws, es, n);
    TerminalIsQuiet(c, ws[n]);
  }

  /** Once ended, the phase never changes again and no child is ever added. */
  lemma {:induction false} EndedIsFinal(c: Config, ws: seq<World>, es: seq<Event>, m: nat, n: nat)
    requires NamesDistinct(c) && Behaviour(c, ws, es) && m <= n < |ws| && ws[m].status.phase.Terminal()
    ensures ws[n].status.phase == ws[m].status.phase
    ensures ws[n].runs.Keys == ws[m].runs.Keys && ws[n].calls.Keys == ws[m].calls.Keys
  {
    hide Step, Inv, NamesDistinct, Enabled;
    if m < n {
      EndedIsFinal(c, ws, es, m, n - 1);
      BehaviourKeepsInv(c, ws, es, n - 1);
      assert Enabled(c, ws[n - 1], es[n - 1]) && ws[n - 1 + 1] == Step(c, ws[n - 1], es[n - 1]);
      StepKeepsInv(c, ws[n - 1], es[n - 1]);
    }
  }

  /** Once cancellation has been requested no child Run or child WorkflowRun is created. */
  lemma {:induction false} NoChildAfterCancellation(c: Config, ws: seq<World>, es: seq<Event>, m: nat, n: nat)
    requires NamesDistinct(c) && Behaviour(c, ws, es) && m <= n < |ws| && ws[m].cancelRequested
    ensures ws[n].cancelRequested && ws[n].runs.Keys == ws[m].runs.Keys && ws[n].calls.Keys == ws[m].calls.Keys
  {
    hide Step, Inv, NamesDistinct, Enabled;
    if m < n {
      NoChildAfterCancellation(c, ws, es, m, n - 1);
      BehaviourKeepsInv(c, ws, es, n - 1);
      assert Enabled(c, ws[n - 1], es[n - 1]) && ws[n - 1 + 1] == Step(c, ws[n - 1], es[n - 1]);
      StepKeepsInv(c, ws[n - 1], es[n - 1]);
    }
  }

  /** A WorkflowRun succeeds only when every one of its jobs has succeeded: no skipped job slips through. */
  lemma SucceededMeansEveryJob(c: Config, ws: seq<World>, es: seq<Event>, n: nat)
    requires NamesDistinct(c) && Behaviour(c, ws, es) && n < |ws| && ws[n].status.phase.WorkflowSucceeded?
    ensures ws[n].status.jobs.Some? && ws[n].status.jobs.value.Keys == c.jobs.Keys
    ensures forall job :: job in c.jobs ==> ws[n].status.jobs.value[job].phase.JobSucceeded?
  {
    BehaviourKeepsInv(c, ws, es, n);
  }
}
