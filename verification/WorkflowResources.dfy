/** The derivation as the controller runs it: loops that update one WorkflowRun's status in place. */
module WorkflowResources {
  import opened Common
  import opened WorkflowStatus
  import opened WorkflowDerive
  import WorkflowIdempotence
  import SkipPropagation

  // ---- one more child Run ---------------------------------------------------

  /** The two sets of Runs agree on what has finished for this step. */
  ghost predicate SameForStep(job: string, step: string, a: map<StepKey, Run>, b: map<StepKey, Run>) {
    forall k: StepKey :: k.job == job && k.step == step ==>
        (Finished(a, k) <==> Finished(b, k)) && (Finished(a, k) ==> a[k] == b[k])
  }

  lemma ProjectedStepSame(c: Config, job: string, s: StepStatus, a: map<StepKey, Run>, b: map<StepKey, Run>)
    requires SameForStep(job, s.name, a, b)
    ensures ProjectedStep(c, job, s, a) == ProjectedStep(c, job, s, b)
  {
    var x, y := ProjectedStep(c, job, s, a), ProjectedStep(c, job, s, b);
    forall i | 0 <= i < |s.actionSteps| ensures x.actionSteps[i] == y.actionSteps[i] {
      assert (Finished(a, StepKey(job, s.name, s.actionSteps[i].name)) <==>
          Finished(b, StepKey(job, s.name, s.actionSteps[i].name)));
    }
    assert x.actionSteps == y.actionSteps;
    BadSame(c, job, s.name, a, b);
  }

  lemma BadSame(c: Config, job: string, step: string, a: map<StepKey, Run>, b: map<StepKey, Run>)
    requires SameForStep(job, step, a, b)
    ensures BadActionRun(c, job, step, a) <==> BadActionRun(c, job, step, b)
  {
  }

  /** No Action-local Run of an inline key's step has been looked at yet. */
  ghost predicate InlineFirst(done: map<StepKey, Run>, key: StepKey) {
    key.action == "" ==> forall k :: k in done && k.action != "" ==> k.job != key.job || k.step != key.step
  }

  lemma InlineAdded(c: Config, job: string, s: StepStatus, done: map<StepKey, Run>, key: StepKey, run: Run)
    requires key == StepKey(job, s.name, "") && key !in done && InlineFirst(done, key) && run.phase.Terminal()
    ensures ProjectedStep(c, job, s, done[key := run]) == ProjectOntoStep(c, ProjectedStep(c, job, s, done), "", run)
  {
    var before := ProjectedStep(c, job, s, done);
    var after := ProjectedStep(c, job, s, done[key := run]);
    assert forall k :: Finished(done, k) && k.action != "" ==> k.job != job || k.step != s.name;
    assert !BadActionRun(c, job, s.name, done) && !BadActionRun(c, job, s.name, done[key := run]);
    forall i | 0 <= i < |s.actionSteps|
      ensures before.actionSteps[i] == s.actionSteps[i] && after.actionSteps[i] == s.actionSteps[i]
    {
      var k := StepKey(job, s.name, s.actionSteps[i].name);
      assert s.actionSteps[i].name == "" || (!Finished(done, k) && !Finished(done[key := run], k));
    }
    assert before.actionSteps == s.actionSteps && after.actionSteps == s.actionSteps;
    assert before == s;
  }

  lemma BadActionAdded(c: Config, job: string, s: StepStatus, done: map<StepKey, Run>, key: StepKey, run: Run)
    requires key.job == job && key.step == s.name && key.action != "" && key !in done && run.phase.Terminal()
    requires !c.environmentOk(run.outputs)
    ensures ProjectedStep(c, job, s, done[key := run]) == ProjectedStep(c, job, s, done).(phase := StepFailed)
  {
    var before, after := ProjectedStep(c, job, s, done), ProjectedStep(c, job, s, done[key := run]);
    assert Finished(done[key := run], key);
    assert BadActionRun(c, job, s.name, done[key := run]);
    forall i | 0 <= i < |s.actionSteps| ensures before.actionSteps[i] == after.actionSteps[i] {
      var k := StepKey(job, s.name, s.actionSteps[i].name);
      assert k != key ==> (Finished(done, k) <==> Finished(done[key := run], k));
    }
    assert before.actionSteps == after.actionSteps;
  }

  lemma ActionAddedAt(
      c: Config, job: string, step: string, inner: seq<ActionStepStatus>, done: map<StepKey, Run>, key: StepKey,
      run: Run, i: nat)
    requires key.job == job && key.step == step && key.action != "" && key !in done && run.phase.Terminal()
    requires c.environmentOk(run.outputs) && i < |inner|
    ensures ProjectedAction(c, job, step, inner, i, done[key := run])
         == if i == FindActionStep(inner, key.action)
             then RecordTerminalActionRun(ProjectedAction(c, job, step, inner, i, done), run)
            else ProjectedAction(c, job, step, inner, i, done)
  {
    var k := StepKey(job, step, inner[i].name);
    assert k != key ==> (Finished(done, k) <==> Finished(done[key := run], k));
    assert Finished(done[key := run], key) && !Finished(done, key);
  }

  lemma GoodActionAdded(c: Config, job: string, s: StepStatus, done: map<StepKey, Run>, key: StepKey, run: Run)
    requires key.job == job && key.step == s.name && key.action != "" && key !in done && run.phase.Terminal()
    requires c.environmentOk(run.outputs)
    ensures ProjectedStep(c, job, s, done[key := run])
              == ProjectOntoStep(c, ProjectedStep(c, job, s, done), key.action, run)
  {
    var before, after := ProjectedStep(c, job, s, done), ProjectedStep(c, job, s, done[key := run]);
    GoodRunAdded(c, job, s.name, done, key, run);
    InnerNamesProjected(c, job, s, done);
    WorkflowIdempotence.FindActionStepSame(s.actionSteps, before.actionSteps, key.action);
    hide BadActionRun, ProjectedAction, RecordTerminalActionRun, RecordTerminalRun, FindActionStep;
    forall i | 0 <= i < |s.actionSteps|
      ensures after.actionSteps[i] == if i == FindActionStep(s.actionSteps, key.action)
                                      then RecordTerminalActionRun(before.actionSteps[i], run)
                                          else before.actionSteps[i]
    {
      ActionAddedAt(c, job, s.name, s.actionSteps, done, key, run, i);
    }
    assert after.actionSteps == ProjectOntoStep(c, before, key.action, run).actionSteps;
  }

  lemma InnerNamesProjected(c: Config, job: string, s: StepStatus, runs: map<StepKey, Run>)
    ensures |ProjectedStep(c, job, s, runs).actionSteps| == |s.actionSteps|
    ensures forall i :: 0 <= i < |s.actionSteps| ==>
              ProjectedStep(c, job, s, runs).actionSteps[i].name == s.actionSteps[i].name
  {
  }

  lemma GoodRunAdded(c: Config, job: string, step: string, done: map<StepKey, Run>, key: StepKey, run: Run)
    requires key !in done && c.environmentOk(run.outputs)
    ensures BadActionRun(c, job, step, done[key := run]) <==> BadActionRun(c, job, step, done)
  {
    if BadActionRun(c, job, step, done) {
      var k :| Finished(done, k) && k.job == job && k.step == step && k.action != ""
          && !c.environmentOk(done[k].outputs);
      assert Finished(done[key := run], k);
    }
  }

  lemma StepAdded(c: Config, job: string, s: StepStatus, done: map<StepKey, Run>, key: StepKey, run: Run)
    requires key.job == job && key.step == s.name && key !in done && InlineFirst(done, key) && run.phase.Terminal()
    ensures ProjectedStep(c, job, s, done[key := run])
              == ProjectOntoStep(c, ProjectedStep(c, job, s, done), key.action, run)
  {
    if key.action == "" {
      InlineAdded(c, job, s, done, key, run);
    } else if c.environmentOk(run.outputs) {
      GoodActionAdded(c, job, s, done, key, run);
    } else {
      BadActionAdded(c, job, s, done, key, run);
    }
  }

  lemma StepsAdded(c: Config, job: string, steps: seq<StepStatus>, done: map<StepKey, Run>, key: StepKey, run: Run)
    requires key.job == job && key !in done && InlineFirst(done, key) && run.phase.Terminal()
    ensures var before := ProjectedSteps(c, job, steps, done);
            var after := ProjectedSteps(c, job, steps, done[key := run]);
            var i := FindStep(before, key.step);
            after == if i == |before| then before else before[i := ProjectOntoStep(c, before[i], key.action, run)]
  {
    hide ProjectedStep, ProjectOntoStep;
    var before, after := ProjectedSteps(c, job, steps, done), ProjectedSteps(c, job, steps, done[key := run]);
    NamesProjected(c, job, steps, done);
    WorkflowIdempotence.FindStepSame(steps, before, key.step);
    var n := FindStep(steps, key.step);
    forall i | 0 <= i < |steps|
      ensures after[i] == if i == n then ProjectOntoStep(c, before[i], key.action, run) else before[i]
    {
      if i == n {
        StepAdded(c, job, steps[i], done, key, run);
      } else if FindStep(steps, steps[i].name) == i {
        assert steps[i].name != key.step;
        ProjectedStepSame(c, job, steps[i], done, done[key := run]);
      }
    }
  }

  lemma NamesProjected(c: Config, job: string, steps: seq<StepStatus>, runs: map<StepKey, Run>)
    ensures WorkflowIdempotence.SameNames(steps, ProjectedSteps(c, job, steps, runs))
  {
  }

  lemma StepsUnaffected(c: Config, job: string, steps: seq<StepStatus>, done: map<StepKey, Run>, key: StepKey, run: Run)
    requires key !in done && (key.job != job || !run.phase.Terminal())
    ensures ProjectedSteps(c, job, steps, done[key := run]) == ProjectedSteps(c, job, steps, done)
  {
    hide ProjectedStep;
    forall i | 0 <= i < |steps|
      ensures ProjectedSteps(c, job, steps, done[key := run])[i] == ProjectedSteps(c, job, steps, done)[i]
    {
      ProjectedStepSame(c, job, steps[i], done, done[key := run]);
    }
  }

  /** Looking at one more Run adds exactly that Run to what has been projected. */
  lemma RunAdded(c: Config, jobs: JobStatuses, done: map<StepKey, Run>, key: StepKey, run: Run)
    requires key !in done && InlineFirst(done, key)
    ensures ProjectChildRun(c, Projected(c, jobs, done), key, run) == Projected(c, jobs, done[key := run])
  {
    hide ProjectedSteps, ProjectOntoStep, FindStep;
    var before, after := Projected(c, jobs, done), Projected(c, jobs, done[key := run]);
    JobsUnaffected(c, jobs, done, key, run);
    if run.phase.Terminal() && key.job in jobs {
      StepsAdded(c, key.job, jobs[key.job].steps, done, key, run);
      assert after == before[key.job := after[key.job]];
    } else {
      assert after == before;
    }
  }

  lemma JobsUnaffected(c: Config, jobs: JobStatuses, done: map<StepKey, Run>, key: StepKey, run: Run)
    requires key !in done
    ensures forall job :: job in jobs && (job != key.job || !run.phase.Terminal()) ==>
              Projected(c, jobs, done[key := run])[job] == Projected(c, jobs, done)[job]
  {
    hide ProjectedSteps;
    forall job | job in jobs && (job != key.job || !run.phase.Terminal())
      ensures Projected(c, jobs, done[key := run])[job] == Projected(c, jobs, done)[job]
    {
      StepsUnaffected(c, job, jobs[job].steps, done, key, run);
    }
  }

  // ---- the record and its loops ---------------------------------------------

  class Resources {
    const c: Config
    const cancelRequested: bool
    const runs: map<StepKey, Run>
    const calls: map<string, ChildWorkflow>
    var phase: WorkflowPhase
    var jobs: Option<JobStatuses>

    constructor (c: Config, w: World)
      ensures this.c == c && Loaded() == w
    {
      this.c := c;
      this.cancelRequested := w.cancelRequested;
      this.runs := w.runs;
      this.calls := w.calls;
      this.phase := w.status.phase;
      this.jobs := w.status.jobs;
    }

    ghost function Loaded(): World
      reads this
    {
      World(Status(phase, jobs), cancelRequested, runs, calls)
    }

    /** Visits the Runs in any order that looks at an inline Run before Action Runs of the same step. */
    method DeriveStepStatusesFromChildRuns()
      requires jobs.Some?
      modifies this`jobs
      ensures jobs == Some(Projected(c, old(jobs).value, runs))
    {
      var todo := runs.Keys;
      ghost var done: map<StepKey, Run> := map[];
      NothingProjected(c, jobs.value);
      while todo != {}
        invariant todo <= runs.Keys && done == runs - todo
        invariant forall k :: k in done && k.action != "" ==> StepKey(k.job, k.step, "") !in todo
        invariant jobs == Some(Projected(c, old(jobs).value, done))
      {
        var key :| key in todo;
        if key.action != "" && StepKey(key.job, key.step, "") in todo {
          key := StepKey(key.job, key.step, "");
        }
        RunAdded(c, old(jobs).value, done, key, runs[key]);
        jobs := Some(ProjectChildRun(c, jobs.value, key, runs[key]));
        todo := todo - {key};
        done := done[key := runs[key]];
      }
      assert done == runs;
    }

    method DeriveActionStepStatuses()
      requires jobs.Some?
      modifies this`jobs
      ensures jobs == Some(ActionsDerived(c, old(jobs).value))
    {
      ghost var before := jobs.value;
      var todo := c.jobs.Keys;
      while todo != {}
        invariant jobs.Some? && jobs.value.Keys == before.Keys
        invariant forall job :: job in before ==>
                    jobs.value[job] == if job in c.jobs && job !in todo then ActionsDerived(c, before)[job]
                        else before[job]
      {
        var job :| job in todo;
        if job in jobs.value {
          ContextKept(before, jobs.value);
          DeriveActionStepsForJob(job);
        }
        todo := todo - {job};
      }
      assert jobs.value == ActionsDerived(c, before);
    }

    method DeriveActionStepsForJob(job: string)
      requires jobs.Some? && job in jobs.value && job in c.jobs
      modifies this`jobs
      ensures jobs.Some? && jobs.value == old(jobs).value[job := ActionsDerived(c, old(jobs).value)[job]]
    {
      ghost var before := jobs.value;
      var specs := c.jobs[job].steps;
      for i := 0 to |specs|
        invariant jobs.Some? && job in jobs.value
        invariant jobs.value
                    == before[job := before[job].(steps :=
                    ActionsDone(c, job, specs, before[job].steps, JobContext(before), i))]
      {
        ContextKept(before, jobs.value);
        var steps := jobs.value[job].steps;
        if specs[i].uses != "" && i < |steps| {
          var ctx := ResolveContext(None, StepContext(steps), JobContext(jobs.value));
          var decided := DeriveActionCall(c, job, specs[i], steps[i], ctx);
          jobs := Some(jobs.value[job := jobs.value[job].(steps := steps[i := decided])]);
        }
      }
    }

    method DeriveWorkflowCallStatuses()
      requires jobs.Some?
      modifies this`jobs
      ensures jobs.Some? && jobs.value.Keys == old(jobs).value.Keys
      ensures forall job :: job in jobs.value ==> jobs.value[job] == CallDerived(old(jobs).value[job], calls)
    {
      var todo := jobs.value.Keys;
      while todo != {}
        invariant jobs.Some? && todo <= jobs.value.Keys == old(jobs).value.Keys
        invariant forall job :: job in jobs.value ==>
                    jobs.value[job] == if job in todo then old(jobs).value[job]
                        else CallDerived(old(jobs).value[job], calls)
      {
        var job :| job in todo;
        jobs := Some(jobs.value[job := CallDerived(jobs.value[job], calls)]);
        todo := todo - {job};
      }
    }

    method DeriveJobStatuses()
      requires jobs.Some?
      modifies this`jobs
      ensures jobs.Some? && jobs.value.Keys == old(jobs).value.Keys
      ensures forall job :: job in jobs.value ==> jobs.value[job] == JobClosed(c, job, old(jobs).value[job])
    {
      var todo := jobs.value.Keys;
      while todo != {}
        invariant jobs.Some? && todo <= jobs.value.Keys == old(jobs).value.Keys
        invariant forall job :: job in jobs.value ==>
                    jobs.value[job] == if job in todo then old(jobs).value[job]
                        else JobClosed(c, job, old(jobs).value[job])
      {
        var job :| job in todo;
        jobs := Some(jobs.value[job := JobClosed(c, job, jobs.value[job])]);
        todo := todo - {job};
      }
    }

    method DeriveCancelledWorkflowRunStatus()
      requires cancelRequested
      modifies this`phase
      ensures phase == CancelledPhase(old(Loaded()))
    {
      if phase.Terminal() {
        return;
      }
      var busyRuns := exists k | k in runs :: !runs[k].phase.Terminal();
      var busyCalls := exists n | n in calls :: !calls[n].phase.Terminal();
      if !busyRuns && !busyCalls {
        phase := WorkflowCancelled;
      }
    }

    method DeriveJobsFromChildren()
      requires jobs.Some?
      modifies this`jobs
      ensures jobs == Some(JobsDerived(c, old(jobs).value, runs, calls))
    {
      hide CallDerived, JobClosed;
      DeriveStepStatusesFromChildRuns();
      DeriveActionStepStatuses();
      DeriveWorkflowCallStatuses();
      DeriveJobStatuses();
      assert jobs.value == JobsDerived(c, old(jobs).value, runs, calls);
    }

    /** The whole derivation; afterwards the record holds Derive of what was loaded. */
    method DeriveWorkflowRunStatus()
      modifies this
      ensures Loaded() == old(Loaded()).(status := Derive(c, old(Loaded())))
    {
      hide JobsDerived;
      if jobs.Some? {
        DeriveJobsFromChildren();
      }
      if cancelRequested {
        DeriveCancelledWorkflowRunStatus();
        return;
      }
      if jobs.Some? {
        var skipped := SkipPropagation.DeriveSkippedJobStatuses(jobs.value);
        jobs := Some(skipped);
        phase := TerminalWorkflowPhase(phase, skipped);
      }
    }
  }

  lemma NothingProjected(c: Config, jobs: JobStatuses)
    ensures Projected(c, jobs, map[]) == jobs
  {
    forall job | job in jobs ensures ProjectedSteps(c, job, jobs[job].steps, map[]) == jobs[job].steps {
      var steps := jobs[job].steps;
      forall i | 0 <= i < |steps| ensures ProjectedStep(c, job, steps[i], map[]) == steps[i] {
        assert ProjectedStep(c, job, steps[i], map[]).actionSteps == steps[i].actionSteps;
      }
    }
  }

  /** Deciding Action calls does not change what finished jobs expose to expressions. */
  lemma ContextKept(a: JobStatuses, b: JobStatuses)
    requires a.Keys == b.Keys
    requires forall job :: job in a ==> a[job].phase == b[job].phase && a[job].outputs == b[job].outputs
    ensures JobContext(a) == JobContext(b)
  {
  }
}
