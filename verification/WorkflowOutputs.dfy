/** The outputs a status carries are those of the children, in every reachable WorkflowRun. */
module WorkflowOutputs {
  import opened Common
  import opened WorkflowStatus
  import opened WorkflowDerive
  import opened WorkflowPlan
  import opened WorkflowInvariant
  import opened WorkflowStart
  import opened WorkflowMachine
  import opened WorkflowExpressions
  import opened WorkflowOutcome
  import T = WorkflowTransparency
  import L = WorkflowLossy
  import SkipPropagation
  import WorkflowEnvironment

  /** A finished Action call carries what it declares, together with what its Runs published. */
  ghost predicate CallCarries(c: Config, job: string, spec: StepSpec, s: StepStatus, ctx: ResolveContext) {
    && ActionKey(job, spec.name) in c.actions
    && exists declared ::
         && DeclaredOutputs(c, c.actions[ActionKey(job, spec.name)], s.actionSteps, spec.inputs, ctx, declared)
         && s.outputs == WorkflowEnvironment.WORKFLOW_ENVIRONMENT.CollectActionOutputs(declared, s.actionSteps)
  }

  /** A finished inline step carries the outputs of its Run. */
  ghost predicate StepCarries(c: Config, job: string, spec: StepSpec, s: StepStatus, runs: map<StepKey, Run>) {
    s.phase.StepSucceeded? ==>
      if spec.uses == "" then
        var key := StepKey(job, s.name, "");
        Finished(runs, key) && s.outputs == runs[key].outputs
      else exists ctx :: CallCarries(c, job, spec, s, ctx)
  }

  ghost predicate StepsCarry(c: Config, job: string, steps: seq<StepStatus>, runs: map<StepKey, Run>)
    requires job in c.jobs
  {
    && |steps| == |c.jobs[job].steps|
    && forall i :: 0 <= i < |steps| ==> StepCarries(c, job, c.jobs[job].steps[i], steps[i], runs)
  }

  /** A succeeded job carries the values of its output expressions, or the outputs of the workflow it called. */
  ghost predicate ResultCarried(c: Config, job: string, status: JobStatus, calls: map<string, ChildWorkflow>)
    requires job in c.jobs
  {
    status.phase.JobSucceeded? ==>
      if c.jobs[job].uses == "" then ValuesOf(c, c.jobs[job].outputs, JobOutputContext(status.steps), status.outputs)
      else
        var name := c.callName(job);
        name in calls && calls[name].phase.WorkflowSucceeded? && calls[name].outputs == Some(status.outputs)
  }

  ghost predicate JobCarries(
      c: Config, job: string, status: JobStatus, runs: map<StepKey, Run>, calls: map<string, ChildWorkflow>)
    requires job in c.jobs
  {
    StepsCarry(c, job, status.steps, runs) && ResultCarried(c, job, status, calls)
  }

  ghost predicate Carries(c: Config, w: World) {
    w.status.jobs.Some? ==>
      forall job :: job in c.jobs ==>
        job in w.status.jobs.value && JobCarries(c, job, w.status.jobs.value[job], w.runs, w.calls)
  }

  // ---- derivation -----------------------------------------------------------

  lemma SettledInline(c: Config, job: string, i: nat, s: StepStatus, runs: map<StepKey, Run>)
    requires NamesDistinct(c) && RunsKnown(c, runs) && job in c.jobs && i < |c.jobs[job].steps|
    requires c.jobs[job].steps[i].uses == "" && StepOk(c, job, c.jobs[job].steps[i], s, runs)
    requires StepCarries(c, job, c.jobs[job].steps[i], s, runs) && s.phase.StepSucceeded?
    ensures ProjectedStep(c, job, s, runs) == s
  {
    NoActionRuns(c, job, i, runs);
    hide NamesDistinct, RunsKnown, BadActionRun;
    assert ProjectedStep(c, job, s, runs).actionSteps == s.actionSteps;
  }

  lemma SettledCall(c: Config, job: string, i: nat, s: StepStatus, runs: map<StepKey, Run>)
    requires NamesDistinct(c) && RunsKnown(c, runs) && job in c.jobs && i < |c.jobs[job].steps|
    requires c.jobs[job].steps[i].uses != "" && StepOk(c, job, c.jobs[job].steps[i], s, runs) && ActionsResolved(c, job)
    requires T.CallRecorded(c, job, c.jobs[job].steps[i], s, runs) && s.phase.StepSucceeded?
    ensures ProjectedStep(c, job, s, runs) == s
  {
    CallPhaseProjected(c, job, i, s, runs);
    ProjectedStepOk(c, job, i, s, runs);
    NoInlineRun(c, job, i, runs);
    hide NamesDistinct, RunsKnown, BadActionRun, ProjectedAction;
    var r := ProjectedStep(c, job, s, runs);
    forall a | 0 <= a < |s.actionSteps| ensures r.actionSteps[a] == s.actionSteps[a] {
      T.SettledActionKept(c, job, s.name, s.actionSteps, a, runs);
    }
    assert r.actionSteps == s.actionSteps;
  }

  lemma InlineCarries(c: Config, w: World, job: string, i: nat)
    requires NamesDistinct(c) && Inv(c, w) && w.status.jobs.Some? && job in c.jobs && job in w.status.jobs.value
    requires i < |w.status.jobs.value[job].steps| && i < |c.jobs[job].steps| && c.jobs[job].steps[i].uses == ""
    requires StepCarries(c, job, c.jobs[job].steps[i], w.status.jobs.value[job].steps[i], w.runs)
    ensures i < |DerivedJob(c, w, job).steps|
    ensures StepCarries(c, job, c.jobs[job].steps[i], DerivedJob(c, w, job).steps[i], w.runs)
    ensures w.status.jobs.value[job].steps[i].phase.StepSucceeded? ==>
              DerivedJob(c, w, job).steps[i] == w.status.jobs.value[job].steps[i]
  {
    hide Inv, NamesDistinct, DerivedJob, ProjectedStep, StepOk;
    InlineStepDerived(c, w, job, i);
    var s, spec := w.status.jobs.value[job].steps[i], c.jobs[job].steps[i];
    InlineProjected(c, job, i, s, w.runs);
    ProjectedName(c, job, s, w.runs);
    T.StepNamed(c, job, spec, s, w.runs);
    if s.phase.StepSucceeded? {
      SettledInline(c, job, i, s, w.runs);
    }
  }

  lemma ProjectedName(c: Config, job: string, s: StepStatus, runs: map<StepKey, Run>)
    ensures ProjectedStep(c, job, s, runs).name == s.name
  {
  }

  lemma ActionCarries(c: Config, w: World, job: string, i: nat)
    requires NamesDistinct(c) && Inv(c, w) && w.status.jobs.Some? && job in c.jobs && job in w.status.jobs.value
    requires i < |w.status.jobs.value[job].steps| && i < |c.jobs[job].steps| && c.jobs[job].steps[i].uses != ""
    requires StepCarries(c, job, c.jobs[job].steps[i], w.status.jobs.value[job].steps[i], w.runs)
    requires T.CallRecorded(c, job, c.jobs[job].steps[i], w.status.jobs.value[job].steps[i], w.runs)
    ensures i < |DerivedJob(c, w, job).steps|
    ensures StepCarries(c, job, c.jobs[job].steps[i], DerivedJob(c, w, job).steps[i], w.runs)
    ensures w.status.jobs.value[job].steps[i].phase.StepSucceeded? ==>
              DerivedJob(c, w, job).steps[i] == w.status.jobs.value[job].steps[i]
  {
    hide Inv, NamesDistinct, DerivedJob, ProjectedStep, StepOk, DeriveActionCall, StepContext, JobContext;
    ActionStepDerived(c, w, job, i);
    var s, spec := w.status.jobs.value[job].steps[i], c.jobs[job].steps[i];
    var d := DerivedJob(c, w, job);
    var ctx := ResolveContext(None, StepContext(d.steps[..i]), JobContext(w.status.jobs.value));
    DecidedCall(c, job, i, s, w.runs, ctx);
    if s.phase.StepSucceeded? {
      SettledCall(c, job, i, s, w.runs);
      TerminalCallKept(c, job, spec, s, ctx);
    } else if d.steps[i].phase.StepSucceeded? {
      assert CallCarries(c, job, spec, d.steps[i], ctx);
    }
  }

  lemma DerivedStepsCarry(c: Config, w: World, job: string)
    requires NamesDistinct(c) && Inv(c, w) && w.status.jobs.Some? && job in c.jobs && job in w.status.jobs.value
    requires StepsCarry(c, job, w.status.jobs.value[job].steps, w.runs)
    requires T.StepsRecorded(c, job, w.status.jobs.value[job].steps, w.runs)
    ensures StepsCarry(c, job, DerivedJob(c, w, job).steps, w.runs)
    ensures AllSucceeded(w.status.jobs.value[job].steps) ==>
              DerivedJob(c, w, job).steps == w.status.jobs.value[job].steps
  {
    hide Inv, NamesDistinct, DerivedJob, StepCarries, T.CallRecorded;
    var steps, d := w.status.jobs.value[job].steps, DerivedJob(c, w, job);
    DerivedStepCount(c, w, job);
    forall i | 0 <= i < |steps|
      ensures StepCarries(c, job, c.jobs[job].steps[i], d.steps[i], w.runs)
      ensures steps[i].phase.StepSucceeded? ==> d.steps[i] == steps[i]
    {
      assert StepCarries(c, job, c.jobs[job].steps[i], steps[i], w.runs);
      if c.jobs[job].steps[i].uses == "" {
        InlineCarries(c, w, job, i);
      } else {
        ActionCarries(c, w, job, i);
      }
    }
  }

  lemma DerivedStepCount(c: Config, w: World, job: string)
    requires w.status.jobs.Some? && job in c.jobs && job in w.status.jobs.value
    ensures |DerivedJob(c, w, job).steps| == |w.status.jobs.value[job].steps|
  {
    hide DerivedJob, ActionsDone, ProjectedSteps;
    StepsDerived(c, w, job);
    ProjectedLength(c, job, w.status.jobs.value[job].steps, w.runs);
  }

  lemma ProjectedLength(c: Config, job: string, steps: seq<StepStatus>, runs: map<StepKey, Run>)
    ensures |ProjectedSteps(c, job, steps, runs)| == |steps|
  {
  }

  /** A job that is not running keeps its phase and outputs, or is skipped. */
  lemma SettledJobDerived(c: Config, w: World, job: string)
    requires w.status.jobs.Some? && job in c.jobs && job in w.status.jobs.value
    requires !w.status.jobs.value[job].phase.JobRunning?
    ensures var s, d := w.status.jobs.value[job], DerivedJob(c, w, job);
            d.outputs == s.outputs && (d.phase.JobSucceeded? ==> s.phase.JobSucceeded?)
  {
    hide ActionsDone, ProjectedSteps, SkipPropagation.Blocked;
  }

  lemma SucceededSteps(c: Config, w: World, job: string)
    requires Inv(c, w) && w.status.jobs.Some? && job in c.jobs && c.jobs[job].uses == ""
    requires job in w.status.jobs.value && w.status.jobs.value[job].phase.JobSucceeded?
    ensures AllSucceeded(w.status.jobs.value[job].steps)
  {
    assert JobOk(c, job, w.status.jobs.value, w.runs, w.calls);
  }

  lemma JobDerivedCarries(c: Config, w: World, job: string)
    requires NamesDistinct(c) && Inv(c, w) && w.status.jobs.Some? && job in c.jobs && job in w.status.jobs.value
    requires JobCarries(c, job, w.status.jobs.value[job], w.runs, w.calls)
    requires T.StepsRecorded(c, job, w.status.jobs.value[job].steps, w.runs)
    ensures JobCarries(c, job, DerivedJob(c, w, job), w.runs, w.calls)
  {
    hide Inv, NamesDistinct, DerivedJob, StepsCarry, T.StepsRecorded, ValuesOf, JobOutputContext, Resolves;
    DerivedStepsCarry(c, w, job);
    var s, d := w.status.jobs.value[job], DerivedJob(c, w, job);
    if !s.phase.JobRunning? {
      SettledJobDerived(c, w, job);
      if s.phase.JobSucceeded? && c.jobs[job].uses == "" {
        SucceededSteps(c, w, job);
      }
    } else if c.jobs[job].uses == "" {
      JobOutcomeAt(c, w, job);
    } else {
      CallOutcomeAt(c, w, job);
    }
  }

  lemma DeriveCarries(c: Config, w: World)
    requires NamesDistinct(c) && Inv(c, w) && T.Recorded(c, w) && Carries(c, w)
    ensures Carries(c, w.(status := Derive(c, w)))
  {
    if w.status.jobs.Some? {
      DerivedJobs(c, w);
      hide Inv, NamesDistinct, Derive, JobCarries, T.StepsRecorded;
      forall job | job in c.jobs
        ensures job in Derive(c, w).jobs.value && JobCarries(c, job, Derive(c, w).jobs.value[job], w.runs, w.calls)
      {
        JobDerivedCarries(c, w, job);
        DerivedJobIs(c, w, job);
      }
    }
  }

  lemma DerivedJobs(c: Config, w: World)
    requires w.status.jobs.Some?
    ensures Derive(c, w).jobs.Some? && Derive(c, w).jobs.value.Keys == w.status.jobs.value.Keys
  {
    hide JobsDerived, SkipPropagation.Skipped, TerminalWorkflowPhase, CancelledPhase;
    DerivedKeys(c, w.status.jobs.value, w.runs, w.calls);
    SkippedKeys(JobsDerived(c, w.status.jobs.value, w.runs, w.calls));
  }

  // ---- the other steps ------------------------------------------------------

  /** Finished children stay as they are. */
  ghost predicate ChildrenStay(w: World, after: World) {
    && (forall k :: Finished(w.runs, k) ==> Finished(after.runs, k) && after.runs[k] == w.runs[k])
    && (forall n :: n in w.calls && w.calls[n].phase.Terminal() ==> n in after.calls && after.calls[n] == w.calls[n])
  }

  lemma JobStillCarries(c: Config, job: string, status: JobStatus, w: World, after: World)
    requires job in c.jobs && JobCarries(c, job, status, w.runs, w.calls) && ChildrenStay(w, after)
    ensures JobCarries(c, job, status, after.runs, after.calls)
  {
    hide CallCarries, ValuesOf;
    forall i | 0 <= i < |status.steps| ensures StepCarries(c, job, c.jobs[job].steps[i], status.steps[i], after.runs) {
      assert StepCarries(c, job, c.jobs[job].steps[i], status.steps[i], w.runs);
    }
  }

  lemma ProgressCarries(c: Config, w: World, after: World)
    requires Carries(c, w) && after.status.jobs == w.status.jobs && ChildrenStay(w, after)
    ensures Carries(c, after)
  {
    if w.status.jobs.Some? {
      hide JobCarries, ChildrenStay;
      forall job | job in c.jobs ensures JobCarries(c, job, w.status.jobs.value[job], after.runs, after.calls) {
        JobStillCarries(c, job, w.status.jobs.value[job], w, after);
      }
    }
  }

  lemma StartedJobCarries(c: Config, w: World, t: Target, rejected: set<string>)
    requires Startable(c, w, t) && t.job in c.jobs
    requires JobCarries(c, t.job, w.status.jobs.value[t.job], w.runs, w.calls)
    ensures var after := StartOne(c, w, t, rejected);
            && after.status.jobs.Some? && t.job in after.status.jobs.value
            && JobCarries(c, t.job, after.status.jobs.value[t.job], w.runs, w.calls)
  {
    hide CallCarries, ValuesOf, TargetKey;
    var was, r := w.status.jobs.value[t.job], StartOne(c, w, t, rejected).status.jobs.value[t.job];
    assert !r.phase.JobSucceeded?;
    forall i | 0 <= i < |r.steps| ensures StepCarries(c, t.job, c.jobs[t.job].steps[i], r.steps[i], w.runs) {
      assert StepCarries(c, t.job, c.jobs[t.job].steps[i], was.steps[i], w.runs);
      assert r.steps[i] == was.steps[i] || !r.steps[i].phase.StepSucceeded?;
    }
  }

  lemma StartOneFrame(c: Config, w: World, t: Target, rejected: set<string>)
    requires Startable(c, w, t)
    ensures var after := StartOne(c, w, t, rejected);
            && ChildrenStay(w, after) && after.status.jobs.Some?
            && forall job :: job in w.status.jobs.value && job != t.job ==>
                 job in after.status.jobs.value && after.status.jobs.value[job] == w.status.jobs.value[job]
  {
    hide RecordStepRun, RecordStepFailure, TargetKey;
  }

  lemma StartOneCarries(c: Config, w: World, t: Target, rejected: set<string>)
    requires Startable(c, w, t) && t.job in c.jobs && Carries(c, w)
    ensures Carries(c, StartOne(c, w, t, rejected))
  {
    hide JobCarries, StartOne, ChildrenStay;
    var after := StartOne(c, w, t, rejected);
    StartOneFrame(c, w, t, rejected);
    StartedJobCarries(c, w, t, rejected);
    forall job | job in c.jobs
      ensures JobCarries(c, job, after.status.jobs.value[job], after.runs, after.calls)
    {
      JobStillCarries(c, job, after.status.jobs.value[job], w, after);
    }
  }

  lemma {:induction false} StartAllCarries(c: Config, w: World, targets: seq<Target>, rejected: set<string>)
    requires Carries(c, w) && forall i :: 0 <= i < |targets| ==> targets[i].job in c.jobs
    ensures Carries(c, StartAll(c, w, targets, rejected))
    decreases |targets|
  {
    hide Carries, StartOne;
    if targets != [] && Startable(c, w, targets[0]) {
      StartOneCarries(c, w, targets[0], rejected);
      StartAllCarries(c, StartOne(c, w, targets[0], rejected), targets[1..], rejected);
    }
  }

  lemma PlannedCarries(c: Config, w: World, names: seq<string>, rejected: set<string>)
    requires Carries(c, w) && w.status.jobs.Some? && Enumerates(names, c.jobs.Keys)
    ensures Carries(c, StartAll(c, w, Targets(c, w.status.jobs.value, names), rejected))
  {
    hide Carries, Targets, StartAll;
    TargetsReady(c, w.status.jobs.value, names);
    var targets := Targets(c, w.status.jobs.value, names);
    forall i | 0 <= i < |targets| ensures targets[i].job in c.jobs {
      assert Ready(c, w.status.jobs.value, targets[i]);
    }
    StartAllCarries(c, w, targets, rejected);
  }

  lemma InitialCarries(c: Config, w: World)
    requires w.status.jobs == Some(InitialJobStatuses(c))
    ensures Carries(c, w)
  {
  }

  lemma CancelCarries(c: Config, w: World)
    requires Carries(c, w)
    ensures Carries(c, CancelChildren(w))
  {
    hide Carries;
    ProgressCarries(c, w, CancelChildren(w));
  }

  lemma ReconcileCarries(c: Config, w: World, names: seq<string>, rejected: set<string>, accept: bool)
    requires NamesDistinct(c) && Inv(c, w) && T.Recorded(c, w) && Carries(c, w) && Enumerates(names, c.jobs.Keys)
    ensures Carries(c, Reconcile(c, w, names, rejected, accept))
  {
    hide NamesDistinct, Inv, T.Recorded, Carries, Derive, PlanFor, Targets, StartAll, CancelChildren, Acceptable,
         InitialJobStatuses, Enumerates;
    DeriveCarries(c, w);
    var d := w.(status := Derive(c, w));
    L.PlanMeans(c, d, names);
    match PlanFor(c, d, names)
    case Nothing =>
    case Initialize =>
      InitialCarries(c, d.(status := Status(WorkflowPending, Some(InitialJobStatuses(c)))));
      ProgressCarries(c, d, d.(status := d.status.(phase := WorkflowFailed)));
    case Start(_) => PlannedCarries(c, d, names, rejected);
    case RequestChildCancellation => CancelCarries(c, d);
  }

  lemma StepKeepsCarries(c: Config, w: World, e: Event)
    requires NamesDistinct(c) && Inv(c, w) && T.Recorded(c, w) && Carries(c, w) && Enabled(c, w, e)
    ensures Carries(c, Step(c, w, e))
  {
    hide NamesDistinct, Inv, T.Recorded, Carries, Reconcile;
    match e
    case Reconciled(names, rejected, accept) => ReconcileCarries(c, w, names, rejected, accept);
    case _ => ProgressCarries(c, w, Step(c, w, e));
  }

  lemma {:induction false} BehaviourCarries(c: Config, ws: seq<World>, es: seq<Event>, n: nat)
    requires NamesDistinct(c) && Behaviour(c, ws, es) && n < |ws|
    ensures Carries(c, ws[n])
  {
    hide NamesDistinct, Inv, Enabled, Step, T.Recorded;
    if n > 0 {
      BehaviourCarries(c, ws, es, n - 1);
      BehaviourKeepsInv(c, ws, es, n - 1);
      T.BehaviourRecorded(c, ws, es, n - 1);
      assert Enabled(c, ws[n - 1], es[n - 1]) && ws[n - 1 + 1] == Step(c, ws[n - 1], es[n - 1]);
      hide Carries;
      StepKeepsCarries(c, ws[n - 1], es[n - 1]);
    }
  }

  // ---- what a reader of the status finds ------------------------------------

  /** In every reachable state a succeeded inline step carries the outputs of its Run. */
  lemma StepOutputsAreItsRuns(c: Config, ws: seq<World>, es: seq<Event>, n: nat, job: string, i: nat)
    requires NamesDistinct(c) && Behaviour(c, ws, es) && n < |ws| && ws[n].status.jobs.Some?
    requires job in c.jobs && job in ws[n].status.jobs.value && i < |ws[n].status.jobs.value[job].steps|
    requires i < |c.jobs[job].steps| && c.jobs[job].steps[i].uses == ""
    requires ws[n].status.jobs.value[job].steps[i].phase.StepSucceeded?
    ensures var s := ws[n].status.jobs.value[job].steps[i];
            var key := StepKey(job, s.name, "");
            Finished(ws[n].runs, key) && s.outputs == ws[n].runs[key].outputs
  {
    BehaviourCarries(c, ws, es, n);
    assert JobCarries(c, job, ws[n].status.jobs.value[job], ws[n].runs, ws[n].calls);
    assert StepCarries(c, job, c.jobs[job].steps[i], ws[n].status.jobs.value[job].steps[i], ws[n].runs);
  }

  /**
    * A succeeded Action call shows to expressions the public outputs it declares, resolved with inputs
    * given to it or defaulted and with the public outputs of its own steps.
    */
  lemma CallOutputsAreDeclared(c: Config, ws: seq<World>, es: seq<Event>, n: nat, job: string, i: nat)
    requires NamesDistinct(c) && Behaviour(c, ws, es) && n < |ws| && ws[n].status.jobs.Some?
    requires job in c.jobs && job in ws[n].status.jobs.value && i < |ws[n].status.jobs.value[job].steps|
    requires i < |c.jobs[job].steps| && c.jobs[job].steps[i].uses != ""
    requires ws[n].status.jobs.value[job].steps[i].phase.StepSucceeded?
    ensures var s, spec := ws[n].status.jobs.value[job].steps[i], c.jobs[job].steps[i];
            var space := WorkflowEnvironment.WORKFLOW_ENVIRONMENT;
            && ActionKey(job, spec.name) in c.actions
            && exists ctx, declared ::
                 && DeclaredOutputs(c, c.actions[ActionKey(job, spec.name)], s.actionSteps, spec.inputs, ctx, declared)
                 && space.PublicOutputs(s.outputs) == space.PublicOutputs(declared)
  {
    BehaviourCarries(c, ws, es, n);
    var s, spec := ws[n].status.jobs.value[job].steps[i], c.jobs[job].steps[i];
    assert JobCarries(c, job, ws[n].status.jobs.value[job], ws[n].runs, ws[n].calls);
    assert StepCarries(c, job, spec, s, ws[n].runs);
    hide Behaviour, NamesDistinct, DeclaredOutputs;
    var ctx :| CallCarries(c, job, spec, s, ctx);
    var declared :| DeclaredOutputs(c, c.actions[ActionKey(job, spec.name)], s.actionSteps, spec.inputs, ctx, declared)
        && s.outputs == WorkflowEnvironment.WORKFLOW_ENVIRONMENT.CollectActionOutputs(declared, s.actionSteps);
    CollectedPublic(declared, s.actionSteps);
  }

  /**
    * A succeeded job carries exactly the values of the outputs it declares over the public outputs of its
    * steps, or those of the workflow it called.
    */
  lemma JobOutputsAre(c: Config, ws: seq<World>, es: seq<Event>, n: nat, job: string)
    requires NamesDistinct(c) && Behaviour(c, ws, es) && n < |ws| && ws[n].status.jobs.Some?
    requires job in c.jobs && job in ws[n].status.jobs.value && ws[n].status.jobs.value[job].phase.JobSucceeded?
    ensures var s := ws[n].status.jobs.value[job];
            if c.jobs[job].uses == "" then ValuesOf(c, c.jobs[job].outputs, JobOutputContext(s.steps), s.outputs)
            else c.callName(job) in ws[n].calls && ws[n].calls[c.callName(job)].outputs == Some(s.outputs)
  {
    BehaviourCarries(c, ws, es, n);
    assert JobCarries(c, job, ws[n].status.jobs.value[job], ws[n].runs, ws[n].calls);
  }
}
