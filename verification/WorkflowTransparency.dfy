/** In every reachable WorkflowRun, Action calls publish what their inner steps published. */
module WorkflowTransparency {
  import opened Common
  import opened WorkflowStatus
  import opened WorkflowDerive
  import opened WorkflowPlan
  import opened WorkflowInvariant
  import opened WorkflowMachine
  import WorkflowEnvironment
  import SkipPropagation

  // ---- what is recorded of an Action call -----------------------------------

  /** A succeeded Action-local step carries the outputs of its finished Run. */
  ghost predicate InnerRecorded(job: string, step: string, inner: seq<ActionStepStatus>, runs: map<StepKey, Run>) {
    forall a :: 0 <= a < |inner| && inner[a].phase.StepSucceeded? ==>
      var key := StepKey(job, step, inner[a].name);
      Finished(runs, key) && inner[a].outputs == runs[key].outputs
  }

  /** A succeeded Action call carries its declared outputs, overlaid with what its inner steps published. */
  ghost predicate CallCollected(c: Config, job: string, spec: StepSpec, s: StepStatus) {
    s.phase.StepSucceeded? ==>
      exists declared ::
        && DeclaredBy(c, job, spec, declared)
        && s.outputs == WorkflowEnvironment.WORKFLOW_ENVIRONMENT.CollectActionOutputs(declared, s.actionSteps)
  }

  ghost predicate DeclaredBy(c: Config, job: string, spec: StepSpec, declared: Outputs) {
    ActionKey(job, spec.name) in c.actions && declared.Keys == c.actions[ActionKey(job, spec.name)].outputs.Keys
  }

  ghost predicate CallRecorded(c: Config, job: string, spec: StepSpec, s: StepStatus, runs: map<StepKey, Run>) {
    InnerRecorded(job, s.name, s.actionSteps, runs) && CallCollected(c, job, spec, s)
  }

  ghost predicate StepsRecorded(c: Config, job: string, steps: seq<StepStatus>, runs: map<StepKey, Run>)
    requires job in c.jobs
  {
    forall i :: 0 <= i < |steps| && i < |c.jobs[job].steps| && c.jobs[job].steps[i].uses != "" ==>
      CallRecorded(c, job, c.jobs[job].steps[i], steps[i], runs)
  }

  ghost predicate Recorded(c: Config, w: World) {
    w.status.jobs.Some? ==>
      forall job :: job in c.jobs && job in w.status.jobs.value ==>
          StepsRecorded(c, job, w.status.jobs.value[job].steps, w.runs)
  }

  // ---- derivation -----------------------------------------------------------

  lemma ProjectedActionRecorded(
      c: Config, job: string, step: string, inner: seq<ActionStepStatus>, a: nat, runs: map<StepKey, Run>)
    requires InnerRecorded(job, step, inner, runs) && a < |inner|
    ensures var r := ProjectedAction(c, job, step, inner, a, runs);
            var key := StepKey(job, step, inner[a].name);
            r.name == inner[a].name
                && (r.phase.StepSucceeded? ==> Finished(runs, key) && r.outputs == runs[key].outputs)
  {
  }

  lemma SettledActionKept(
      c: Config, job: string, step: string, inner: seq<ActionStepStatus>, a: nat, runs: map<StepKey, Run>)
    requires InnerRecorded(job, step, inner, runs) && ActionSlotsOk(c, job, step, inner, runs)
    requires a < |inner| && inner[a].phase.StepSucceeded?
    ensures ProjectedAction(c, job, step, inner, a, runs) == inner[a]
  {
    assert SlotOk(c, runs, StepKey(job, step, inner[a].name), inner[a].phase, inner[a].runName);
  }

  lemma ProjectedRecorded(c: Config, job: string, spec: StepSpec, s: StepStatus, runs: map<StepKey, Run>)
    requires StepOk(c, job, spec, s, runs) && spec.uses != "" && CallRecorded(c, job, spec, s, runs)
    requires StepKey(job, s.name, "") !in runs
    ensures CallRecorded(c, job, spec, ProjectedStep(c, job, s, runs), runs)
  {
    hide CallCollected, ProjectedAction, SlotOk, BadActionRun;
    var r := ProjectedStep(c, job, s, runs);
    forall a | 0 <= a < |r.actionSteps| && r.actionSteps[a].phase.StepSucceeded?
      ensures var key := StepKey(job, s.name, r.actionSteps[a].name);
              Finished(runs, key) && r.actionSteps[a].outputs == runs[key].outputs
    {
      ProjectedActionRecorded(c, job, s.name, s.actionSteps, a, runs);
    }
    if s.phase.StepSucceeded? {
      forall a | 0 <= a < |s.actionSteps| ensures r.actionSteps[a] == s.actionSteps[a] {
        SettledActionKept(c, job, s.name, s.actionSteps, a, runs);
      }
      assert r.actionSteps == s.actionSteps;
    }
    SameCollected(c, job, spec, s, r);
  }

  lemma SameCollected(c: Config, job: string, spec: StepSpec, s: StepStatus, r: StepStatus)
    requires CallCollected(c, job, spec, s)
    requires r.phase.StepSucceeded? ==>
               s.phase.StepSucceeded? && r.outputs == s.outputs && r.actionSteps == s.actionSteps
    ensures CallCollected(c, job, spec, r)
  {
  }

  lemma ProjectedStepsRecorded(c: Config, job: string, steps: seq<StepStatus>, runs: map<StepKey, Run>)
    requires NamesDistinct(c) && RunsKnown(c, runs) && job in c.jobs
    requires StepsOk(c, job, steps, runs) && StepsRecorded(c, job, steps, runs)
    ensures StepsRecorded(c, job, ProjectedSteps(c, job, steps, runs), runs)
  {
    hide CallRecorded, ProjectedStep, StepOk;
    forall i | 0 <= i < |steps| && c.jobs[job].steps[i].uses != ""
      ensures CallRecorded(c, job, c.jobs[job].steps[i], ProjectedSteps(c, job, steps, runs)[i], runs)
    {
      assert StepOk(c, job, c.jobs[job].steps[i], steps[i], runs)
          && CallRecorded(c, job, c.jobs[job].steps[i], steps[i], runs);
      StepNamed(c, job, c.jobs[job].steps[i], steps[i], runs);
      NoInlineRun(c, job, i, runs);
      ProjectedRecorded(c, job, c.jobs[job].steps[i], steps[i], runs);
    }
  }

  lemma StepNamed(c: Config, job: string, spec: StepSpec, s: StepStatus, runs: map<StepKey, Run>)
    requires StepOk(c, job, spec, s, runs)
    ensures s.name == spec.name && (spec.uses == "" ==> s.actionSteps == [])
  {
  }

  /** Status derivation gives a finished call exactly the outputs the Action declares and its steps published. */
  lemma DerivedCallRecorded(
      c: Config, job: string, spec: StepSpec, s: StepStatus, ctx: ResolveContext, runs: map<StepKey, Run>)
    requires CallRecorded(c, job, spec, s, runs)
    ensures CallRecorded(c, job, spec, DeriveActionCall(c, job, spec, s, ctx), runs)
  {
    var r := DeriveActionCall(c, job, spec, s, ctx);
    assert r.actionSteps == s.actionSteps && r.name == s.name;
    if r.phase.StepSucceeded? && !s.phase.Terminal() {
      var declared := ResolveActionOutputs(c, c.actions[ActionKey(job, spec.name)], s.actionSteps, spec.inputs, ctx);
      assert DeclaredBy(c, job, spec, declared.value);
    }
  }

  lemma {:induction false} ActionsRecorded(
      c: Config, job: string, steps: seq<StepStatus>, runs: map<StepKey, Run>, ctx: map<string, Outputs>, n: nat)
    requires job in c.jobs && n <= |c.jobs[job].steps| && StepsRecorded(c, job, steps, runs)
    ensures StepsRecorded(c, job, ActionsDone(c, job, c.jobs[job].steps, steps, ctx, n), runs)
  {
    hide CallRecorded, DeriveActionCall, StepContext;
    if n > 0 {
      ActionsRecorded(c, job, steps, runs, ctx, n - 1);
      var before := ActionsDone(c, job, c.jobs[job].steps, steps, ctx, n - 1);
      var spec := c.jobs[job].steps[n - 1];
      if spec.uses != "" && n - 1 < |before| {
        DerivedCallRecorded(c, job, spec, before[n - 1], ResolveContext(None, StepContext(before), ctx), runs);
      }
    }
  }

  lemma DerivedSteps(
      c: Config, jobs: JobStatuses, runs: map<StepKey, Run>, calls: map<string, ChildWorkflow>, job: string)
    requires job in jobs && job in c.jobs
    ensures job in JobsDerived(c, jobs, runs, calls)
    ensures JobsDerived(c, jobs, runs, calls)[job].steps
         == ActionsDone(c, job, c.jobs[job].steps, ProjectedSteps(c, job, jobs[job].steps, runs),
                        JobContext(Projected(c, jobs, runs)), |c.jobs[job].steps|)
  {
    hide ProjectedSteps, ActionsDone, JobContext;
  }

  lemma DeriveRecorded(c: Config, w: World)
    requires NamesDistinct(c) && Inv(c, w) && Recorded(c, w)
    ensures Recorded(c, w.(status := Derive(c, w)))
  {
    if w.status.jobs.Some? {
      var jobs := w.status.jobs.value;
      hide StepsOk, StepsRecorded, JobsDerived, NamesDistinct, RunsKnown, Acceptable, SkipPropagation.Blocked;
      forall job | job in c.jobs ensures job in JobsDerived(c, jobs, w.runs, w.calls)
                                 && StepsRecorded(c, job, JobsDerived(c, jobs, w.runs, w.calls)[job].steps, w.runs)
      {
        assert JobOk(c, job, jobs, w.runs, w.calls);
        ProjectedStepsRecorded(c, job, jobs[job].steps, w.runs);
        ActionsRecorded(c, job, ProjectedSteps(c, job, jobs[job].steps, w.runs), w.runs,
                        JobContext(Projected(c, jobs, w.runs)), |c.jobs[job].steps|);
        DerivedSteps(c, jobs, w.runs, w.calls, job);
      }
      SkippedSteps(JobsDerived(c, jobs, w.runs, w.calls));
    }
  }

  lemma SkippedSteps(jobs: JobStatuses)
    ensures SkipPropagation.Skipped(jobs).Keys == jobs.Keys
    ensures forall job :: job in jobs ==> SkipPropagation.Skipped(jobs)[job].steps == jobs[job].steps
  {
  }

  // ---- the other steps ------------------------------------------------------

  /** Finished Runs stay, so what was recorded of them stays right. */
  lemma RecordedKept(
      c: Config, job: string, spec: StepSpec, s: StepStatus, runs: map<StepKey, Run>, after: map<StepKey, Run>)
    requires CallRecorded(c, job, spec, s, runs)
    requires forall k :: Finished(runs, k) ==> Finished(after, k) && after[k].outputs == runs[k].outputs
    ensures CallRecorded(c, job, spec, s, after)
  {
  }

  lemma ProgressRecorded(c: Config, w: World, after: World)
    requires Recorded(c, w) && after.status.jobs == w.status.jobs
    requires forall k :: Finished(w.runs, k) ==> Finished(after.runs, k) && after.runs[k].outputs == w.runs[k].outputs
    ensures Recorded(c, after)
  {
    hide CallRecorded;
    if w.status.jobs.Some? {
      var jobs := w.status.jobs.value;
      forall job | job in c.jobs && job in jobs ensures StepsRecorded(c, job, jobs[job].steps, after.runs) {
        forall i | 0 <= i < |jobs[job].steps| && i < |c.jobs[job].steps| && c.jobs[job].steps[i].uses != ""
          ensures CallRecorded(c, job, c.jobs[job].steps[i], jobs[job].steps[i], after.runs)
        {
          assert CallRecorded(c, job, c.jobs[job].steps[i], jobs[job].steps[i], w.runs);
          RecordedKept(c, job, c.jobs[job].steps[i], jobs[job].steps[i], w.runs, after.runs);
        }
      }
    }
  }

  /** Marking a step Running or Failed records no outputs. */
  lemma TouchedRecorded(c: Config, job: string, spec: StepSpec, s: StepStatus, r: StepStatus, runs: map<StepKey, Run>)
    requires CallRecorded(c, job, spec, s, runs) && r.name == s.name && !r.phase.StepSucceeded?
    requires |r.actionSteps| == |s.actionSteps|
    requires forall a :: 0 <= a < |r.actionSteps| ==>
               r.actionSteps[a] == s.actionSteps[a] || !r.actionSteps[a].phase.StepSucceeded?
    ensures CallRecorded(c, job, spec, r, runs)
  {
  }

  lemma JobReplaced(c: Config, w: World, job: string, status: JobStatus, i: nat)
    requires Recorded(c, w) && w.status.jobs.Some? && job in w.status.jobs.value
    requires var was := w.status.jobs.value[job];
             && |status.steps| == |was.steps|
                 && (forall j :: 0 <= j < |was.steps| && j != i ==> status.steps[j] == was.steps[j])
             && (i < |was.steps| ==>
                   && status.steps[i].name == was.steps[i].name
                   && |status.steps[i].actionSteps| == |was.steps[i].actionSteps|
                       && !status.steps[i].phase.StepSucceeded?
                   && forall a :: 0 <= a < |was.steps[i].actionSteps| ==>
                        || status.steps[i].actionSteps[a] == was.steps[i].actionSteps[a]
                        || !status.steps[i].actionSteps[a].phase.StepSucceeded?)
    ensures Recorded(c, w.(status := Status(WorkflowRunning, Some(w.status.jobs.value[job := status]))))
  {
    hide CallRecorded;
    var jobs := w.status.jobs.value;
    var next: JobStatuses := jobs[job := status];
    forall x | x in c.jobs && x in jobs ensures StepsRecorded(c, x, next[x].steps, w.runs) {
      assert StepsRecorded(c, x, jobs[x].steps, w.runs);
      if x == job && i < |status.steps| && i < |c.jobs[job].steps| && c.jobs[job].steps[i].uses != "" {
        assert CallRecorded(c, job, c.jobs[job].steps[i], jobs[job].steps[i], w.runs);
        TouchedRecorded(c, job, c.jobs[job].steps[i], jobs[job].steps[i], status.steps[i], w.runs);
      }
    }
  }

  lemma StartOneRecorded(c: Config, w: World, t: Target, rejected: set<string>)
    requires Startable(c, w, t) && Recorded(c, w)
    ensures Recorded(c, StartOne(c, w, t, rejected))
  {
    hide StepsRecorded;
    var r := StartOne(c, w, t, rejected);
    var status := r.status.jobs.value[t.job];
    JobReplaced(c, w, t.job, status, if t.StepTarget? then t.stepIndex else |status.steps|);
    ProgressRecorded(c, w.(status := Status(WorkflowRunning, Some(w.status.jobs.value[t.job := status]))), r);
  }

  lemma {:induction false} StartAllRecorded(c: Config, w: World, targets: seq<Target>, rejected: set<string>)
    requires Recorded(c, w)
    ensures Recorded(c, StartAll(c, w, targets, rejected))
    decreases |targets|
  {
    hide Recorded, StartOne;
    if targets != [] && Startable(c, w, targets[0]) {
      StartOneRecorded(c, w, targets[0], rejected);
      StartAllRecorded(c, StartOne(c, w, targets[0], rejected), targets[1..], rejected);
    }
  }

  lemma InitialRecorded(c: Config, w: World)
    requires w.status.jobs == Some(InitialJobStatuses(c))
    ensures Recorded(c, w)
  {
  }

  lemma ReconcileRecorded(c: Config, w: World, names: seq<string>, rejected: set<string>, accept: bool)
    requires NamesDistinct(c) && Inv(c, w) && Recorded(c, w)
    ensures Recorded(c, Reconcile(c, w, names, rejected, accept))
  {
    DeriveRecorded(c, w);
    var d := w.(status := Derive(c, w));
    hide Derive, Recorded, StartAll, CancelChildren, PlanFor, NamesDistinct, Inv, Acceptable, InitialJobStatuses;
    match PlanFor(c, d, names)
    case Nothing =>
    case Initialize =>
      InitialRecorded(c, d.(status := Status(WorkflowPending, Some(InitialJobStatuses(c)))));
      ProgressRecorded(c, d, d.(status := d.status.(phase := WorkflowFailed)));
    case Start(targets) => StartAllRecorded(c, d, targets, rejected);
    case RequestChildCancellation => CancelRecorded(c, d);
  }

  lemma CancelRecorded(c: Config, w: World)
    requires Recorded(c, w)
    ensures Recorded(c, CancelChildren(w))
  {
    hide Recorded;
    ProgressRecorded(c, w, CancelChildren(w));
  }

  lemma StepRecorded(c: Config, w: World, e: Event)
    requires NamesDistinct(c) && Inv(c, w) && Enabled(c, w, e) && Recorded(c, w)
    ensures Recorded(c, Step(c, w, e))
  {
    hide Recorded, Inv, NamesDistinct, Reconcile;
    match e
    case Reconciled(names, rejected, accept) => ReconcileRecorded(c, w, names, rejected, accept);
    case _ => ProgressRecorded(c, w, Step(c, w, e));
  }

  lemma {:induction false} BehaviourRecorded(c: Config, ws: seq<World>, es: seq<Event>, n: nat)
    requires NamesDistinct(c) && Behaviour(c, ws, es) && n < |ws|
    ensures Recorded(c, ws[n])
  {
    hide *;
    StepOf(c, ws, es, n);
    if n > 0 {
      BehaviourRecorded(c, ws, es, n - 1);
      BehaviourKeepsInv(c, ws, es, n - 1);
      StepRecorded(c, ws[n - 1], es[n - 1]);
    }
  }

  lemma StepOf(c: Config, ws: seq<World>, es: seq<Event>, n: nat)
    requires Behaviour(c, ws, es) && n < |ws|
    ensures |ws| == |es| + 1 && (n == 0 ==> Recorded(c, ws[n]))
    ensures n > 0 ==> Enabled(c, ws[n - 1], es[n - 1]) && ws[n] == Step(c, ws[n - 1], es[n - 1])
  {
    hide Enabled, Step;
    assert n > 0 ==> ws[n - 1 + 1] == ws[n];
  }

  // ---- transparency ---------------------------------------------------------

  /** None of the Actions the job calls declares an output under the reserved prefix. */
  ghost predicate DeclaresNothingReserved(c: Config, job: string)
    requires job in c.jobs
  {
    forall i, name :: 0 <= i < |c.jobs[job].steps| && c.jobs[job].steps[i].uses != "" ==>
      var key := ActionKey(job, c.jobs[job].steps[i].name);
      key in c.actions && name in c.actions[key].outputs ==> !WorkflowEnvironment.WORKFLOW_ENVIRONMENT.Reserved(name)
  }

  lemma RecordedCallDerived(c: Config, job: string, i: nat, s: StepStatus, runs: map<StepKey, Run>)
    requires job in c.jobs && i < |c.jobs[job].steps| && DeclaresNothingReserved(c, job)
    requires StepOk(c, job, c.jobs[job].steps[i], s, runs)
    requires c.jobs[job].steps[i].uses != "" ==> CallRecorded(c, job, c.jobs[job].steps[i], s, runs)
    ensures WorkflowEnvironment.WORKFLOW_ENVIRONMENT.CallOutputsDerived(s)
  {
    var space := WorkflowEnvironment.WORKFLOW_ENVIRONMENT;
    var spec := c.jobs[job].steps[i];
    if s.actionSteps != [] && s.phase.StepSucceeded? {
      var declared :| DeclaredBy(c, job, spec, declared)
          && s.outputs == space.CollectActionOutputs(declared, s.actionSteps);
      assert forall name :: space.Reserved(space.prefix + name);
      assert space.DeclaresOnlyOverwritten(declared, s.actionSteps);
    }
  }

  /**
    * In every reachable state, whatever the Runs published: for a job whose Actions declare no reserved
    * output, the environment any step or Action-local step inherits is that of the workflow with every
    * Action call replaced by its inner steps.
    */
  lemma EnvironmentIsInlined(
      c: Config, ws: seq<World>, es: seq<Event>, n: nat, job: string, stepIndex: nat, actionStepIndex: nat)
    requires NamesDistinct(c) && Behaviour(c, ws, es) && n < |ws| && ws[n].status.jobs.Some?
    requires job in c.jobs && DeclaresNothingReserved(c, job)
    ensures job in ws[n].status.jobs.value
    ensures var space := WorkflowEnvironment.WORKFLOW_ENVIRONMENT;
            var steps := ws[n].status.jobs.value[job].steps;
            space.Merged(space.InheritedOutputs(steps, stepIndex, actionStepIndex))
            == space.Merged(space.InlinedInherited(steps, stepIndex, actionStepIndex))
  {
    BehaviourRecorded(c, ws, es, n);
    BehaviourKeepsInv(c, ws, es, n);
    var jobs := ws[n].status.jobs.value;
    assert JobOk(c, job, jobs, ws[n].runs, ws[n].calls);
    var steps := jobs[job].steps;
    hide CallRecorded, StepOk, DeclaresNothingReserved;
    forall i | 0 <= i < |steps| ensures WorkflowEnvironment.WORKFLOW_ENVIRONMENT.CallOutputsDerived(steps[i]) {
      assert StepOk(c, job, c.jobs[job].steps[i], steps[i], ws[n].runs);
      RecordedCallDerived(c, job, i, steps[i], ws[n].runs);
    }
    WorkflowEnvironment.WORKFLOW_ENVIRONMENT.ActionCallsAreTransparent(steps, stepIndex, actionStepIndex);
  }
}
