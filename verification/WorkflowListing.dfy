/** Deriving the status of a WorkflowRun from a listing that may miss some of its children. */
module WorkflowListing {
  import opened Common
  import opened WorkflowStatus
  import opened WorkflowDerive
  import opened WorkflowPlan
  import opened WorkflowInvariant
  import opened WorkflowMachine
  import opened WorkflowTheorems
  import opened WorkflowResources

  /** The same WorkflowRun with its children as listed: some may be missing, some shown as they were. */
  ghost predicate Lists(seen: World, w: World) {
    && seen == w.(runs := seen.runs, calls := seen.calls)
    && (forall k :: k in seen.runs ==> k in w.runs && (seen.runs[k].phase.Terminal() ==> seen.runs[k] == w.runs[k]))
    && (forall n :: n in seen.calls ==>
          n in w.calls && (seen.calls[n].phase.Terminal() ==> seen.calls[n] == w.calls[n]))
  }

  /** Outside cancellation a listing that has caught up with the finished children is as good as the truth. */
  lemma MissedChildrenMatterOnlyWhenCancelling(c: Config, w: World, seen: World)
    requires Lists(seen, w) && !w.cancelRequested
    requires forall k :: Finished(w.runs, k) ==> Finished(seen.runs, k)
    requires forall n :: n in w.calls && w.calls[n].phase.Terminal() ==>
               n in seen.calls && seen.calls[n].phase.Terminal()
    ensures Derive(c, seen) == Derive(c, w)
  {
    if w.status.jobs.Some? {
      var jobs := w.status.jobs.value;
      SameProjection(c, jobs, seen.runs, w.runs);
      forall job | job in jobs
        ensures forall status: JobStatus :: CallDerived(status, seen.calls) == CallDerived(status, w.calls)
      {
      }
      hide ActionsDerived, Projected, CallDerived, JobClosed;
      assert JobsDerived(c, jobs, seen.runs, seen.calls) == JobsDerived(c, jobs, w.runs, w.calls);
    }
  }

  lemma SameProjection(c: Config, jobs: JobStatuses, a: map<StepKey, Run>, b: map<StepKey, Run>)
    requires forall k :: (Finished(a, k) <==> Finished(b, k)) && (Finished(a, k) ==> a[k] == b[k])
    ensures Projected(c, jobs, a) == Projected(c, jobs, b)
  {
    hide ProjectedStep;
    forall job | job in jobs
      ensures ProjectedSteps(c, job, jobs[job].steps, a) == ProjectedSteps(c, job, jobs[job].steps, b)
    {
      var steps := jobs[job].steps;
      forall i | 0 <= i < |steps| ensures ProjectedSteps(c, job, steps, a)[i] == ProjectedSteps(c, job, steps, b)[i] {
        ProjectedStepSame(c, job, steps[i], a, b);
      }
    }
  }

  // ---- cancelled over an unfinished child -----------------------------------

  /** The status records the step, inline or Action-local, as Running. */
  ghost predicate RecordedRunning(c: Config, jobs: JobStatuses, k: StepKey) {
    && k.job in c.jobs && k.job in jobs && |jobs[k.job].steps| == |c.jobs[k.job].steps|
    && exists i :: 0 <= i < |jobs[k.job].steps| && RunningAt(c.jobs[k.job].steps[i], jobs[k.job].steps[i], k)
  }

  ghost predicate RunningAt(spec: StepSpec, s: StepStatus, k: StepKey) {
    && s.name == k.step && s.phase.StepRunning?
    && if spec.uses == "" then k.action == ""
       else exists a :: 0 <= a < |s.actionSteps| && RunningInner(s.actionSteps[a], k)
  }

  ghost predicate RunningInner(s: ActionStepStatus, k: StepKey) {
    s.name == k.action && s.phase.StepRunning?
  }

  /** The status records the child WorkflowRun of the job as running. */
  ghost predicate RecordedCalling(c: Config, jobs: JobStatuses, job: string) {
    job in c.jobs && job in jobs && c.jobs[job].uses != "" && jobs[job].phase.JobRunning?
  }

  /** Every child that the status records as running is in the listing. */
  ghost predicate RecordedListed(c: Config, seen: World) {
    seen.status.jobs.Some? ==>
      var jobs := seen.status.jobs.value;
      && (forall k :: RecordedRunning(c, jobs, k) ==> k in seen.runs)
      && (forall job :: RecordedCalling(c, jobs, job) ==> jobs[job].workflowRunName in seen.calls)
  }

  /** With this listing of these children the WorkflowRun becomes Cancelled although one of them is unfinished. */
  ghost predicate CancelledEarly(c: Config, w: World, seen: World) {
    Lists(seen, w) && Derive(c, seen).phase.WorkflowCancelled? && !Quiet(w.runs, w.calls)
  }

  lemma UnfinishedIsRecorded(c: Config, w: World, k: StepKey)
    requires Inv(c, w) && k in w.runs && !w.runs[k].phase.Terminal()
    ensures w.status.jobs.Some? && RecordedRunning(c, w.status.jobs.value, k)
  {
    var jobs := w.status.jobs.value;
    assert KeyKnown(c, k) && JobOk(c, k.job, jobs, w.runs, w.calls);
    var steps, specs := jobs[k.job].steps, c.jobs[k.job].steps;
    var i :| 0 <= i < |specs| && KeyAt(c, k, specs[i]);
    assert StepOk(c, k.job, specs[i], steps[i], w.runs);
    UnfinishedAt(c, k.job, specs[i], steps[i], w.runs, k);
    assert RunningAt(specs[i], steps[i], k);
  }

  lemma UnfinishedAt(c: Config, job: string, spec: StepSpec, s: StepStatus, runs: map<StepKey, Run>, k: StepKey)
    requires StepOk(c, job, spec, s, runs) && k in runs && k.job == job && KeyAt(c, k, spec)
    requires !runs[k].phase.Terminal()
    ensures RunningAt(spec, s, k)
  {
    if spec.uses != "" {
      var inner, names := s.actionSteps, c.actions[ActionKey(job, s.name)].steps;
      var a :| 0 <= a < |names| && names[a] == k.action;
      assert SlotOk(c, runs, StepKey(job, s.name, inner[a].name), inner[a].phase, inner[a].runName);
      assert RunningInner(inner[a], k) && !FreshAction(inner[a]);
    }
  }

  lemma UnfinishedCallIsRecorded(c: Config, w: World, n: string)
    requires Inv(c, w) && n in w.calls && !w.calls[n].phase.Terminal()
    ensures w.status.jobs.Some?
    ensures exists job :: RecordedCalling(c, w.status.jobs.value, job) && w.status.jobs.value[job].workflowRunName == n
  {
    var job :| job in c.jobs && c.callName(job) == n;
    assert JobOk(c, job, w.status.jobs.value, w.runs, w.calls);
  }

  /** A listing that shows every child recorded as running is never the ground for cancelling too early. */
  lemma RecordedListedIsSafe(c: Config, w: World, seen: World)
    requires Inv(c, w) && Lists(seen, w) && w.cancelRequested && !w.status.phase.Terminal()
    requires RecordedListed(c, seen)
    ensures !CancelledEarly(c, w, seen)
  {
    hide JobsDerived, Inv;
    if Quiet(seen.runs, seen.calls) {
      forall k | k in w.runs ensures w.runs[k].phase.Terminal() {
        if !w.runs[k].phase.Terminal() {
          UnfinishedIsRecorded(c, w, k);
        }
      }
      forall n | n in w.calls ensures w.calls[n].phase.Terminal() {
        if !w.calls[n].phase.Terminal() {
          UnfinishedCallIsRecorded(c, w, n);
        }
      }
    }
  }

  // ---- and one that does not show them may be --------------------------------

  /** The same WorkflowRun, as it is if the child Run has not finished. */
  ghost function Unfinished(c: Config, w: World, k: StepKey): World {
    w.(runs := w.runs[k := NewRun(c.runName(k))])
  }

  lemma OtherStepKept(
      c: Config, job: string, spec: StepSpec, s: StepStatus, runs: map<StepKey, Run>, k: StepKey, r: Run)
    requires StepOk(c, job, spec, s, runs) && (k.job != job || k.step != s.name)
    ensures StepOk(c, job, spec, s, runs[k := r])
  {
    if spec.uses != "" {
      forall a | 0 <= a < |s.actionSteps|
        ensures var key := StepKey(job, s.name, s.actionSteps[a].name);
                SlotOk(c, runs[k := r], key, s.actionSteps[a].phase, s.actionSteps[a].runName)
      {
        var key := StepKey(job, s.name, s.actionSteps[a].name);
        assert SlotOk(c, runs, key, s.actionSteps[a].phase, s.actionSteps[a].runName);
      }
    }
  }

  lemma RunningStepKept(c: Config, job: string, spec: StepSpec, s: StepStatus, runs: map<StepKey, Run>, k: StepKey)
    requires ActionsDistinct(c, job, spec) && StepOk(c, job, spec, s, runs) && k.job == job && RunningAt(spec, s, k)
    ensures k in runs && StepOk(c, job, spec, s, runs[k := NewRun(c.runName(k))])
  {
    if spec.uses != "" {
      var inner := s.actionSteps;
      var a :| 0 <= a < |inner| && RunningInner(inner[a], k);
      assert SlotOk(c, runs, k, inner[a].phase, inner[a].runName);
      forall b | 0 <= b < |inner|
        ensures SlotOk(c, runs[k := NewRun(c.runName(k))], StepKey(job, s.name, inner[b].name),
                       inner[b].phase, inner[b].runName)
      {
        assert SlotOk(c, runs, StepKey(job, s.name, inner[b].name), inner[b].phase, inner[b].runName);
      }
    }
  }

  ghost predicate ActionsDistinct(c: Config, job: string, spec: StepSpec) {
    spec.uses != "" ==>
      ActionKey(job, spec.name) in c.actions && Distinct(c.actions[ActionKey(job, spec.name)].steps)
  }

  lemma StepsKept(c: Config, w: World, k: StepKey, job: string)
    requires NamesDistinct(c) && Inv(c, w) && w.status.jobs.Some? && job in c.jobs
    requires RecordedRunning(c, w.status.jobs.value, k)
    ensures job in w.status.jobs.value && StepsOk(c, job, w.status.jobs.value[job].steps, Unfinished(c, w, k).runs)
    ensures job == k.job ==> k in w.runs
  {
    var jobs := w.status.jobs.value;
    assert JobOk(c, job, jobs, w.runs, w.calls) && ActionsResolved(c, job);
    var steps, specs := jobs[job].steps, c.jobs[job].steps;
    hide Inv, JobOk, StepOk, RunningAt, NamesDistinct;
    var i :| 0 <= i < |jobs[k.job].steps| && RunningAt(c.jobs[k.job].steps[i], jobs[k.job].steps[i], k);
    forall j | 0 <= j < |steps|
      ensures StepOk(c, job, specs[j], steps[j], Unfinished(c, w, k).runs) && (job == k.job && j == i ==> k in w.runs)
    {
      assert StepOk(c, job, specs[j], steps[j], w.runs);
      if job == k.job {
        assert StepOk(c, job, specs[i], steps[i], w.runs);
      }
      StepKept(c, w.runs, job, steps, k, i, j);
    }
  }

  lemma StepKept(
      c: Config, runs: map<StepKey, Run>, job: string, steps: seq<StepStatus>, k: StepKey, i: nat, j: nat)
    requires NamesDistinct(c) && job in c.jobs && ActionsResolved(c, job)
    requires j < |steps| == |c.jobs[job].steps| && StepOk(c, job, c.jobs[job].steps[j], steps[j], runs)
    requires k.job == job ==>
               i < |steps| && RunningAt(c.jobs[job].steps[i], steps[i], k) && steps[i].name == c.jobs[job].steps[i].name
    ensures StepOk(c, job, c.jobs[job].steps[j], steps[j], runs[k := NewRun(c.runName(k))])
    ensures job == k.job && j == i ==> k in runs
  {
    if job == k.job && j == i {
      RunningStepKept(c, job, c.jobs[job].steps[j], steps[j], runs, k);
    } else {
      OtherStepKept(c, job, c.jobs[job].steps[j], steps[j], runs, k, NewRun(c.runName(k)));
    }
  }

  lemma UnfinishedRunIsPossible(c: Config, w: World, k: StepKey)
    requires NamesDistinct(c) && Inv(c, w) && !w.status.phase.Terminal() && w.status.jobs.Some?
    requires RecordedRunning(c, w.status.jobs.value, k)
    ensures Inv(c, Unfinished(c, w, k))
  {
    hide *;
    var jobs, after := w.status.jobs.value, Unfinished(c, w, k);
    forall job | job in c.jobs ensures job in jobs && JobOk(c, job, jobs, after.runs, w.calls) {
      JobKept(c, w, k, job);
    }
    UnfinishedFrame(c, w, k);
    StillSound(c, w, after);
  }

  lemma UnfinishedFrame(c: Config, w: World, k: StepKey)
    requires NamesDistinct(c) && Inv(c, w) && w.status.jobs.Some? && RecordedRunning(c, w.status.jobs.value, k)
    ensures var after := Unfinished(c, w, k);
            after == w.(runs := after.runs, calls := after.calls) && after.runs.Keys == w.runs.Keys
            && after.calls == w.calls
  {
    hide Inv, NamesDistinct, JobOk;
    JobKept(c, w, k, k.job);
  }

  /** The same status over children of the same names: what is left to check is each job. */
  lemma StillSound(c: Config, w: World, after: World)
    requires Inv(c, w) && w.status.jobs.Some? && !w.status.phase.Terminal()
    requires after == w.(runs := after.runs, calls := after.calls)
    requires after.runs.Keys == w.runs.Keys && after.calls.Keys == w.calls.Keys
    requires forall job :: job in c.jobs ==>
               job in w.status.jobs.value && JobOk(c, job, w.status.jobs.value, after.runs, after.calls)
    ensures Inv(c, after)
  {
    hide JobOk, Acceptable, KeyKnown;
    forall k | k in after.runs ensures KeyKnown(c, k) {
      assert k in w.runs;
    }
    forall n | n in after.calls ensures exists job :: job in c.jobs && c.callName(job) == n {
      assert n in w.calls;
    }
  }

  lemma JobKept(c: Config, w: World, k: StepKey, job: string)
    requires NamesDistinct(c) && Inv(c, w) && w.status.jobs.Some? && job in c.jobs
    requires RecordedRunning(c, w.status.jobs.value, k)
    ensures job in w.status.jobs.value
    ensures JobOk(c, job, w.status.jobs.value, Unfinished(c, w, k).runs, w.calls)
    ensures job == k.job ==> k in w.runs
  {
    StepsKept(c, w, k, job);
    assert JobOk(c, job, w.status.jobs.value, w.runs, w.calls);
    hide StepsOk, PhaseMatchesSteps, CallOk, NeedsOk, Inv, NamesDistinct, RecordedRunning;
  }

  /** The same WorkflowRun, as it is if the child WorkflowRun has not finished. */
  ghost function UnfinishedCall(c: Config, w: World, job: string): World {
    w.(calls := w.calls[c.callName(job) := NewCall()])
  }

  lemma UnfinishedCallIsPossible(c: Config, w: World, job: string)
    requires NamesDistinct(c) && Inv(c, w) && !w.status.phase.Terminal() && w.status.jobs.Some?
    requires RecordedCalling(c, w.status.jobs.value, job)
    ensures Inv(c, UnfinishedCall(c, w, job))
  {
    hide *;
    var jobs, after := w.status.jobs.value, UnfinishedCall(c, w, job);
    forall other | other in c.jobs ensures other in jobs && JobOk(c, other, jobs, w.runs, after.calls) {
      CallKept(c, w, job, other);
    }
    UnfinishedCallFrame(c, w, job);
    StillSound(c, w, after);
  }

  lemma UnfinishedCallFrame(c: Config, w: World, job: string)
    requires NamesDistinct(c) && Inv(c, w) && w.status.jobs.Some? && RecordedCalling(c, w.status.jobs.value, job)
    ensures var after := UnfinishedCall(c, w, job);
            after == w.(runs := after.runs, calls := after.calls) && after.calls.Keys == w.calls.Keys
            && after.runs == w.runs
  {
    CallNamed(c, w, job);
    hide Inv, NamesDistinct, JobOk;
  }

  lemma CallKept(c: Config, w: World, job: string, other: string)
    requires NamesDistinct(c) && Inv(c, w) && w.status.jobs.Some? && other in c.jobs
    requires RecordedCalling(c, w.status.jobs.value, job)
    ensures other in w.status.jobs.value
    ensures JobOk(c, other, w.status.jobs.value, w.runs, UnfinishedCall(c, w, job).calls)
  {
    assert c.callName(job) == c.callName(other) ==> job == other;
    assert JobOk(c, job, w.status.jobs.value, w.runs, w.calls) && JobOk(c, other, w.status.jobs.value, w.runs, w.calls);
    hide StepsOk, PhaseMatchesSteps, NeedsOk, Inv, NamesDistinct;
  }

  /** What the controller sees does not rule out an unfinished child: here it has one. */
  lemma UnlistedMayBeUnfinished(c: Config, w: World, seen: World) returns (other: World)
    requires NamesDistinct(c) && Inv(c, w) && Lists(seen, w) && w.cancelRequested && !w.status.phase.Terminal()
    requires Quiet(seen.runs, seen.calls) && !RecordedListed(c, seen)
    ensures Inv(c, other) && other.status == w.status && CancelledEarly(c, other, seen)
  {
    hide NamesDistinct, Inv, Quiet, Derive, RecordedRunning, CancelledEarly, Unfinished, UnfinishedCall;
    var jobs := w.status.jobs.value;
    if k :| RecordedRunning(c, jobs, k) && k !in seen.runs {
      other := Unfinished(c, w, k);
      UnlistedRun(c, w, seen, k);
    } else {
      var job :| RecordedCalling(c, jobs, job) && jobs[job].workflowRunName !in seen.calls;
      other := UnfinishedCall(c, w, job);
      UnlistedCall(c, w, seen, job);
    }
  }

  lemma UnlistedRun(c: Config, w: World, seen: World, k: StepKey)
    requires NamesDistinct(c) && Inv(c, w) && Lists(seen, w) && w.cancelRequested && !w.status.phase.Terminal()
    requires Quiet(seen.runs, seen.calls) && w.status.jobs.Some?
    requires RecordedRunning(c, w.status.jobs.value, k) && k !in seen.runs
    ensures var other := Unfinished(c, w, k);
            Inv(c, other) && other.status == w.status && CancelledEarly(c, other, seen)
  {
    hide *;
    ListsSame(seen, w);
    UnfinishedRunIsPossible(c, w, k);
    UnlistedRunFits(c, w, seen, k);
    CancelsOver(c, Unfinished(c, w, k), seen);
  }

  lemma UnlistedRunFits(c: Config, w: World, seen: World, k: StepKey)
    requires Lists(seen, w) && k !in seen.runs
    ensures var other := Unfinished(c, w, k);
            other.status == w.status && Lists(seen, other) && !Quiet(other.runs, other.calls)
  {
    assert k in Unfinished(c, w, k).runs;
  }

  lemma UnlistedCall(c: Config, w: World, seen: World, job: string)
    requires NamesDistinct(c) && Inv(c, w) && Lists(seen, w) && w.cancelRequested && !w.status.phase.Terminal()
    requires Quiet(seen.runs, seen.calls) && w.status.jobs.Some?
    requires RecordedCalling(c, w.status.jobs.value, job)
    requires w.status.jobs.value[job].workflowRunName !in seen.calls
    ensures var other := UnfinishedCall(c, w, job);
            Inv(c, other) && other.status == w.status && CancelledEarly(c, other, seen)
  {
    hide *;
    CallNamed(c, w, job);
    ListsSame(seen, w);
    UnfinishedCallIsPossible(c, w, job);
    UnlistedCallFits(c, w, seen, job);
    CancelsOver(c, UnfinishedCall(c, w, job), seen);
  }

  lemma CallNamed(c: Config, w: World, job: string)
    requires Inv(c, w) && w.status.jobs.Some? && RecordedCalling(c, w.status.jobs.value, job)
    ensures c.callName(job) in w.calls && w.status.jobs.value[job].workflowRunName == c.callName(job)
  {
    assert JobOk(c, job, w.status.jobs.value, w.runs, w.calls);
  }

  lemma UnlistedCallFits(c: Config, w: World, seen: World, job: string)
    requires Lists(seen, w) && c.callName(job) !in seen.calls
    ensures var other := UnfinishedCall(c, w, job);
            other.status == w.status && Lists(seen, other) && !Quiet(other.runs, other.calls)
  {
    assert c.callName(job) in UnfinishedCall(c, w, job).calls;
  }

  lemma CancelsOver(c: Config, w: World, seen: World)
    requires Lists(seen, w) && seen.cancelRequested && !seen.status.phase.Terminal()
    requires Quiet(seen.runs, seen.calls) && !Quiet(w.runs, w.calls)
    ensures CancelledEarly(c, w, seen)
  {
    hide JobsDerived, Lists;
  }

  lemma ListsSame(seen: World, w: World)
    requires Lists(seen, w)
    ensures seen.cancelRequested == w.cancelRequested && seen.status == w.status
  {
  }

  /**
    * What the controller has at hand, its status and a listing, can belong to children one of which is
    * unfinished when Cancelled is derived, exactly when nothing listed is unfinished and a child recorded
    * as running is not listed.
    */
  lemma CancelledEarlyIff(c: Config, w: World, seen: World)
    requires NamesDistinct(c) && Inv(c, w) && Lists(seen, w) && w.cancelRequested && !w.status.phase.Terminal()
    ensures (exists other :: Inv(c, other) && other.status == w.status && CancelledEarly(c, other, seen))
       <==> Quiet(seen.runs, seen.calls) && !RecordedListed(c, seen)
  {
    hide Inv, NamesDistinct, RecordedListed, Lists, JobsDerived;
    if Quiet(seen.runs, seen.calls) && !RecordedListed(c, seen) {
      var other := UnlistedMayBeUnfinished(c, w, seen);
    }
    forall other | Inv(c, other) && other.status == w.status && CancelledEarly(c, other, seen)
      ensures Quiet(seen.runs, seen.calls) && !RecordedListed(c, seen)
    {
      EarlyNeedsBoth(c, w, other, seen);
    }
  }

  lemma EarlyNeedsBoth(c: Config, w: World, other: World, seen: World)
    requires Lists(seen, w) && w.cancelRequested && !w.status.phase.Terminal()
    requires Inv(c, other) && other.status == w.status && CancelledEarly(c, other, seen)
    ensures Quiet(seen.runs, seen.calls) && !RecordedListed(c, seen)
  {
    hide JobsDerived, Inv, RecordedListed;
    if RecordedListed(c, seen) {
      RecordedListedIsSafe(c, other, seen);
      assert false;
    }
  }

  /** A listing that is late but complete meets the condition. */
  lemma CompleteListingMeetsIt(c: Config, w: World, seen: World)
    requires NamesDistinct(c) && Inv(c, w) && Lists(seen, w)
    requires seen.runs.Keys == w.runs.Keys && seen.calls.Keys == w.calls.Keys
    ensures RecordedListed(c, seen)
  {
    if w.status.jobs.Some? {
      hide Inv, NamesDistinct, RecordedRunning;
      forall k | RecordedRunning(c, w.status.jobs.value, k) ensures k in w.runs {
        RunningJob(c, w.status.jobs.value, k);
        StepsKept(c, w, k, k.job);
      }
      forall job | RecordedCalling(c, w.status.jobs.value, job)
        ensures w.status.jobs.value[job].workflowRunName in w.calls
      {
        CallNamed(c, w, job);
      }
    }
  }

  lemma RunningJob(c: Config, jobs: JobStatuses, k: StepKey)
    requires RecordedRunning(c, jobs, k)
    ensures k.job in c.jobs
  {
  }

  /** In every reachable state: a listing of every child recorded as running never cancels too early. */
  lemma ListedRunsAreSafe(c: Config, ws: seq<World>, es: seq<Event>, n: nat, seen: World)
    requires NamesDistinct(c) && Behaviour(c, ws, es) && n < |ws| && Lists(seen, ws[n]) && RecordedListed(c, seen)
    ensures Derive(c, seen).phase.WorkflowCancelled? ==> Quiet(ws[n].runs, ws[n].calls)
  {
    BehaviourKeepsInv(c, ws, es, n);
    hide Behaviour, Inv, RecordedListed, JobsDerived;
    if ws[n].status.phase.Terminal() {
      TerminalIsQuiet(c, ws[n]);
    } else if ws[n].cancelRequested {
      RecordedListedIsSafe(c, ws[n], seen);
    } else {
      assert !Derive(c, seen).phase.WorkflowCancelled?;
    }
  }
}
