/** Deriving the status twice from the same children gives the same status as deriving it once. */
module WorkflowIdempotence {
  import opened Common
  import opened WorkflowStatus
  import opened WorkflowDerive
  import SkipPropagation

  // ---- projection -----------------------------------------------------------

  ghost predicate SameNames(a: seq<StepStatus>, b: seq<StepStatus>) {
    |a| == |b| && forall i :: 0 <= i < |a| ==> a[i].name == b[i].name
  }

  lemma {:induction false} FindStepSame(a: seq<StepStatus>, b: seq<StepStatus>, name: string)
    requires SameNames(a, b)
    ensures FindStep(a, name) == FindStep(b, name)
  {
    if a != [] {
      FindStepSame(a[1..], b[1..], name);
    }
  }

  lemma {:induction false} FindActionStepSame(a: seq<ActionStepStatus>, b: seq<ActionStepStatus>, name: string)
    requires |a| == |b| && forall i :: 0 <= i < |a| ==> a[i].name == b[i].name
    ensures FindActionStep(a, name) == FindActionStep(b, name)
  {
    if a != [] {
      FindActionStepSame(a[1..], b[1..], name);
    }
  }

  lemma InnerProjectedTwice(
      c: Config, job: string, step: string, inner: seq<ActionStepStatus>, again: seq<ActionStepStatus>, a: nat,
      runs: map<StepKey, Run>)
    requires a < |inner| == |again|
    requires forall b :: 0 <= b < |inner| ==> again[b] == ProjectedAction(c, job, step, inner, b, runs)
    ensures ProjectedAction(c, job, step, again, a, runs) == again[a]
  {
    assert forall b :: 0 <= b < |inner| ==> again[b].name == inner[b].name;
    FindActionStepSame(inner, again, inner[a].name);
  }

  /** r is p with its Action call possibly decided, which only happens while p is undecided. */
  ghost predicate Decided(p: StepStatus, r: StepStatus) {
    r == p || (!p.phase.Terminal() && r.name == p.name && r.runName == p.runName && r.actionSteps == p.actionSteps)
  }

  lemma StepProjectedTwice(c: Config, job: string, s: StepStatus, r: StepStatus, runs: map<StepKey, Run>)
    requires Decided(ProjectedStep(c, job, s, runs), r)
    ensures ProjectedStep(c, job, r, runs) == r
  {
    var p := ProjectedStep(c, job, s, runs);
    assert r.name == s.name && |r.actionSteps| == |s.actionSteps|;
    var again := ProjectedStep(c, job, r, runs);
    forall a | 0 <= a < |r.actionSteps| ensures again.actionSteps[a] == r.actionSteps[a] {
      InnerProjectedTwice(c, job, s.name, s.actionSteps, r.actionSteps, a, runs);
    }
    assert again.actionSteps == r.actionSteps;
  }

  lemma StepsProjectedTwice(c: Config, job: string, steps: seq<StepStatus>, r: seq<StepStatus>, runs: map<StepKey, Run>)
    requires |r| == |steps| && forall i :: 0 <= i < |steps| ==> Decided(ProjectedSteps(c, job, steps, runs)[i], r[i])
    ensures ProjectedSteps(c, job, r, runs) == r
  {
    var p := ProjectedSteps(c, job, steps, runs);
    assert SameNames(steps, r) by {
      forall i | 0 <= i < |steps| ensures steps[i].name == r[i].name {
        assert Decided(p[i], r[i]);
      }
    }
    forall i | 0 <= i < |steps| ensures ProjectedSteps(c, job, r, runs)[i] == r[i] {
      FindStepSame(steps, r, steps[i].name);
      assert Decided(p[i], r[i]);
      if FindStep(steps, steps[i].name) == i {
        StepProjectedTwice(c, job, steps[i], r[i], runs);
      }
    }
  }

  // ---- Action calls ---------------------------------------------------------

  /** Nothing more to decide about this Action call, in any context. */
  ghost predicate CallStable(c: Config, job: string, spec: StepSpec, s: StepStatus) {
    forall ctx :: DeriveActionCall(c, job, spec, s, ctx) == s
  }

  lemma DerivedCallStable(c: Config, job: string, spec: StepSpec, s: StepStatus, ctx: ResolveContext)
    ensures CallStable(c, job, spec, DeriveActionCall(c, job, spec, s, ctx))
  {
  }

  lemma DerivedCallDecides(c: Config, job: string, spec: StepSpec, s: StepStatus, ctx: ResolveContext)
    ensures Decided(s, DeriveActionCall(c, job, spec, s, ctx))
  {
  }

  lemma Undecided(steps: seq<StepStatus>)
    ensures forall i :: 0 <= i < |steps| ==> Decided(steps[i], steps[i])
  {
  }

  lemma {:induction false} ActionsDoneStable(
      c: Config, job: string, specs: seq<StepSpec>, steps: seq<StepStatus>, ctx: map<string, Outputs>, n: nat)
    requires n <= |specs|
    ensures var r := ActionsDone(c, job, specs, steps, ctx, n);
            && (forall i :: 0 <= i < |steps| ==> Decided(steps[i], r[i]))
            && (forall i :: 0 <= i < n && i < |steps| && specs[i].uses != "" ==> CallStable(c, job, specs[i], r[i]))
            && (forall i :: n <= i < |steps| ==> r[i] == steps[i])
  {
    hide CallStable, Decided, DeriveActionCall, StepContext;
    if n > 0 {
      ActionsDoneStable(c, job, specs, steps, ctx, n - 1);
      var before := ActionsDone(c, job, specs, steps, ctx, n - 1);
      if specs[n - 1].uses != "" && n - 1 < |steps| {
        DerivedCallStable(c, job, specs[n - 1], before[n - 1], ResolveContext(None, StepContext(before), ctx));
        DerivedCallDecides(c, job, specs[n - 1], before[n - 1], ResolveContext(None, StepContext(before), ctx));
      }
    } else {
      Undecided(steps);
    }
  }

  lemma {:induction false} StableActionsDone(
      c: Config, job: string, specs: seq<StepSpec>, steps: seq<StepStatus>, ctx: map<string, Outputs>, n: nat)
    requires n <= |specs|
    requires forall i :: 0 <= i < |specs| && i < |steps| && specs[i].uses != "" ==>
               CallStable(c, job, specs[i], steps[i])
    ensures ActionsDone(c, job, specs, steps, ctx, n) == steps
  {
    if n > 0 {
      StableActionsDone(c, job, specs, steps, ctx, n - 1);
      if specs[n - 1].uses != "" && n - 1 < |steps| {
        assert CallStable(c, job, specs[n - 1], steps[n - 1]);
        var context := ResolveContext(None, StepContext(steps), ctx);
        assert DeriveActionCall(c, job, specs[n - 1], steps[n - 1], context) == steps[n - 1];
      }
    }
  }

  // ---- jobs -----------------------------------------------------------------

  function SpecsOf(c: Config, job: string): seq<StepSpec> {
    if job in c.jobs then c.jobs[job].steps else []
  }

  /** Another derivation leaves this job alone, whatever happens to other jobs. */
  ghost predicate Fixed(
      c: Config, job: string, status: JobStatus, runs: map<StepKey, Run>, calls: map<string, ChildWorkflow>) {
    && ProjectedSteps(c, job, status.steps, runs) == status.steps
    && (forall i :: 0 <= i < |SpecsOf(c, job)| && i < |status.steps| && SpecsOf(c, job)[i].uses != "" ==>
          CallStable(c, job, SpecsOf(c, job)[i], status.steps[i]))
    && JobClosed(c, job, CallDerived(status, calls)) == status
  }

  lemma DerivedJobFixed(
      c: Config, jobs: JobStatuses, runs: map<StepKey, Run>, calls: map<string, ChildWorkflow>, job: string)
    requires job in jobs
    ensures Fixed(c, job, JobsDerived(c, jobs, runs, calls)[job], runs, calls)
  {
    hide CallStable, ActionsDone, JobContext, StepContext;
    var projected := Projected(c, jobs, runs);
    var acted := ActionsDerived(c, projected);
    var specs := SpecsOf(c, job);
    ActionsDoneStable(c, job, specs, projected[job].steps, JobContext(projected), |specs|);
    assert forall i :: 0 <= i < |jobs[job].steps| ==> Decided(projected[job].steps[i], acted[job].steps[i]);
    StepsProjectedTwice(c, job, jobs[job].steps, acted[job].steps, runs);
    ClosedTwice(c, job, acted[job], calls);
  }

  lemma ClosedTwice(c: Config, job: string, status: JobStatus, calls: map<string, ChildWorkflow>)
    ensures var r := JobClosed(c, job, CallDerived(status, calls));
            r.steps == status.steps && JobClosed(c, job, CallDerived(r, calls)) == r
  {
  }

  lemma FixedDerived(c: Config, jobs: JobStatuses, runs: map<StepKey, Run>, calls: map<string, ChildWorkflow>)
    requires forall job :: job in jobs ==> Fixed(c, job, jobs[job], runs, calls)
    ensures JobsDerived(c, jobs, runs, calls) == jobs
  {
    hide JobClosed, CallDerived, ProjectedSteps, ActionsDone, CallStable, JobContext;
    var projected := Projected(c, jobs, runs);
    assert projected == jobs;
    forall job | job in jobs ensures ActionsDerived(c, projected)[job] == jobs[job] {
      assert Fixed(c, job, jobs[job], runs, calls);
      StableActionsDone(c, job, SpecsOf(c, job), jobs[job].steps, JobContext(projected), |SpecsOf(c, job)|);
    }
    assert ActionsDerived(c, projected) == jobs;
  }

  lemma SkippedFixed(c: Config, jobs: JobStatuses, runs: map<StepKey, Run>, calls: map<string, ChildWorkflow>)
    requires forall job :: job in jobs ==> Fixed(c, job, jobs[job], runs, calls)
    ensures var r := SkipPropagation.Skipped(jobs);
            forall job :: job in r ==> Fixed(c, job, r[job], runs, calls)
  {
    var r := SkipPropagation.Skipped(jobs);
    forall job | job in r ensures Fixed(c, job, r[job], runs, calls) {
      assert Fixed(c, job, jobs[job], runs, calls);
    }
  }

  /** Jobs that were derived, and then perhaps skipped, are left alone by another derivation. */
  lemma JobsDerivedTwice(c: Config, jobs: JobStatuses, runs: map<StepKey, Run>, calls: map<string, ChildWorkflow>)
    ensures var derived := JobsDerived(c, jobs, runs, calls);
            && JobsDerived(c, derived, runs, calls) == derived
            && JobsDerived(c, SkipPropagation.Skipped(derived), runs, calls) == SkipPropagation.Skipped(derived)
  {
    hide JobsDerived, Fixed, SkipPropagation.Skipped;
    var derived := JobsDerived(c, jobs, runs, calls);
    DerivedWithin(c, jobs, runs, calls);
    forall job | job in derived ensures Fixed(c, job, derived[job], runs, calls) {
      DerivedJobFixed(c, jobs, runs, calls, job);
    }
    FixedDerived(c, derived, runs, calls);
    SkippedFixed(c, derived, runs, calls);
    FixedDerived(c, SkipPropagation.Skipped(derived), runs, calls);
  }

  /** For every status and every set of children: derivation is idempotent. */
  lemma DeriveIsIdempotent(c: Config, w: World)
    ensures Derive(c, w.(status := Derive(c, w))) == Derive(c, w)
  {
    if w.status.jobs.Some? {
      hide JobsDerived, Fixed, SkipPropagation.Skipped;
      JobsDerivedTwice(c, w.status.jobs.value, w.runs, w.calls);
      SkipPropagation.SkippedIdempotent(JobsDerived(c, w.status.jobs.value, w.runs, w.calls));
    }
  }

  lemma DerivedWithin(c: Config, jobs: JobStatuses, runs: map<StepKey, Run>, calls: map<string, ChildWorkflow>)
    ensures JobsDerived(c, jobs, runs, calls).Keys == jobs.Keys
  {
  }
}
