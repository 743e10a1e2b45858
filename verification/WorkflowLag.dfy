/** The WorkflowRun protocol when children are listed from a cache that lags behind them. */
module WorkflowLag {
  import opened Common
  import opened WorkflowStatus
  import opened WorkflowDerive
  import opened WorkflowPlan
  import opened WorkflowInvariant
  import opened WorkflowTheorems
  import M = WorkflowMachine

  // ---- complete listings that lag -------------------------------------------

  /** What the controller has listed, and the children as they really are. */
  datatype State = State(known: World, runs: map<StepKey, Run>, calls: map<string, ChildWorkflow>)

  datatype Event =
    | Reconciled(names: seq<string>, rejected: set<string>, accept: bool)
    | RunMoved(key: StepKey, run: Run)
    | CallMoved(name: string, child: ChildWorkflow)
    | RunListed(key: StepKey)
    | CallListed(name: string)
    | CancelRequested

  ghost predicate Enabled(c: Config, s: State, e: Event) {
    match e
    case Reconciled(names, _, _) => Enumerates(names, c.jobs.Keys)
    case RunMoved(key, run) => key in s.runs && !s.runs[key].phase.Terminal() && run.name == s.runs[key].name
    case CallMoved(name, _) => name in s.calls && !s.calls[name].phase.Terminal()
    case RunListed(key) => key in s.known.runs && key in s.runs && !s.known.runs[key].phase.Terminal()
    case CallListed(name) => name in s.known.calls && name in s.calls && !s.known.calls[name].phase.Terminal()
    case CancelRequested => true
  }

  /** Created children join the others; a request to stop reaches those that have not finished. */
  ghost function RunsAfter(listed: map<StepKey, Run>, runs: map<StepKey, Run>): map<StepKey, Run> {
    map k | k in listed ::
      if k !in runs then listed[k]
      else if listed[k].terminating && !runs[k].phase.Terminal() then runs[k].(terminating := true)
      else runs[k]
  }

  ghost function CallsAfter(
      listed: map<string, ChildWorkflow>, calls: map<string, ChildWorkflow>): map<string, ChildWorkflow> {
    map n | n in listed ::
      if n !in calls then listed[n]
      else if listed[n].cancelRequested && !calls[n].phase.Terminal() then calls[n].(cancelRequested := true)
      else calls[n]
  }

  ghost function Step(c: Config, s: State, e: Event): State
    requires Enabled(c, s, e)
  {
    match e
    case Reconciled(names, rejected, accept) =>
      var next := Reconcile(c, s.known, names, rejected, accept);
      State(next, RunsAfter(next.runs, s.runs), CallsAfter(next.calls, s.calls))
    case RunMoved(key, run) => s.(runs := s.runs[key := run])
    case CallMoved(name, child) => s.(calls := s.calls[name := child])
    case RunListed(key) => s.(known := s.known.(runs := s.known.runs[key := s.runs[key]]))
    case CallListed(name) => s.(known := s.known.(calls := s.known.calls[name := s.calls[name]]))
    case CancelRequested => s.(known := s.known.(cancelRequested := true))
  }

  ghost predicate Behaviour(c: Config, ss: seq<State>, es: seq<Event>) {
    && |ss| == |es| + 1 && M.Initial(ss[0].known) && ss[0].runs == map[] && ss[0].calls == map[]
    && forall i :: 0 <= i < |es| ==> Enabled(c, ss[i], es[i]) && ss[i + 1] == Step(c, ss[i], es[i])
  }

  /** Every child is listed, under its name; what is listed as finished is so. */
  ghost predicate Behind(s: State) {
    && s.known.runs.Keys == s.runs.Keys && s.known.calls.Keys == s.calls.Keys
    && (forall k :: k in s.runs ==>
          && s.known.runs[k].name == s.runs[k].name
          && (s.known.runs[k].phase.Terminal() ==> s.runs[k].phase.Terminal()))
    && (forall n :: n in s.calls && s.known.calls[n].phase.Terminal() ==> s.calls[n].phase.Terminal())
  }

  // ---- the lagging protocol is the protocol ---------------------------------

  /** Children stay, with their names and phases. */
  ghost predicate ChildrenKept(w: World, after: World) {
    && (forall k :: k in w.runs ==>
          k in after.runs && after.runs[k].name == w.runs[k].name && after.runs[k].phase == w.runs[k].phase)
    && (forall n :: n in w.calls ==> n in after.calls && after.calls[n].phase == w.calls[n].phase)
  }

  lemma StartOneKeepsChildren(c: Config, w: World, t: Target, rejected: set<string>)
    requires Startable(c, w, t)
    ensures ChildrenKept(w, StartOne(c, w, t, rejected))
  {
  }

  lemma {:induction false} StartKeepsChildren(c: Config, w: World, targets: seq<Target>, rejected: set<string>)
    ensures ChildrenKept(w, StartAll(c, w, targets, rejected))
    decreases |targets|
  {
    hide StartOne, ChildrenKept;
    if targets != [] && Startable(c, w, targets[0]) {
      var next := StartOne(c, w, targets[0], rejected);
      StartOneKeepsChildren(c, w, targets[0], rejected);
      StartKeepsChildren(c, next, targets[1..], rejected);
      KeptTwice(w, next, StartAll(c, next, targets[1..], rejected));
    } else {
      KeptTwice(w, w, w);
    }
  }

  lemma KeptTwice(a: World, b: World, c: World)
    ensures ChildrenKept(a, a)
    ensures ChildrenKept(a, b) && ChildrenKept(b, c) ==> ChildrenKept(a, c)
  {
  }

  lemma ReconcileKeepsChildren(c: Config, w: World, names: seq<string>, rejected: set<string>, accept: bool)
    ensures ChildrenKept(w, Reconcile(c, w, names, rejected, accept))
  {
    hide Derive, StartAll, Targets, Acceptable, InitialJobStatuses;
    var d := w.(status := Derive(c, w));
    match PlanFor(c, d, names)
    case Start(targets) => StartKeepsChildren(c, d, targets, rejected);
    case _ =>
  }

  lemma StepStaysBehind(c: Config, s: State, e: Event)
    requires Behind(s) && Enabled(c, s, e)
    ensures Behind(Step(c, s, e))
  {
    hide Reconcile;
    if e.Reconciled? {
      ReconcileKeepsChildren(c, s.known, e.names, e.rejected, e.accept);
    }
  }

  /** The event the controller takes part in, if any. */
  ghost function Visible(s: State, e: Event): Option<M.Event>
    requires e.RunListed? ==> e.key in s.runs
    requires e.CallListed? ==> e.name in s.calls
  {
    match e
    case Reconciled(names, rejected, accept) => Some(M.Reconciled(names, rejected, accept))
    case RunListed(key) => Some(M.RunMoved(key, s.runs[key]))
    case CallListed(name) => Some(M.CallMoved(name, s.calls[name]))
    case CancelRequested => Some(M.CancelRequested)
    case _ => None
  }

  lemma StepIsVisible(c: Config, s: State, e: Event)
    requires Behind(s) && Enabled(c, s, e)
    ensures var v := Visible(s, e);
            if v.None? then Step(c, s, e).known == s.known
            else M.Enabled(c, s.known, v.value) && Step(c, s, e).known == M.Step(c, s.known, v.value)
  {
    hide Reconcile;
  }

  lemma Extended(c: Config, ws: seq<World>, ks: seq<M.Event>, e: M.Event)
    requires M.Behaviour(c, ws, ks) && M.Enabled(c, ws[|ks|], e)
    ensures M.Behaviour(c, ws + [M.Step(c, ws[|ks|], e)], ks + [e])
  {
    hide M.Enabled, M.Step;
  }

  /** What the controller knows is always a reachable state of the protocol without lag. */
  lemma {:induction false} LagIsHarmless(
      c: Config, ss: seq<State>, es: seq<Event>, n: nat)
      returns (ws: seq<World>, ks: seq<M.Event>)
    requires Behaviour(c, ss, es) && n < |ss|
    ensures M.Behaviour(c, ws, ks) && ws[|ks|] == ss[n].known && Behind(ss[n])
  {
    hide Step, Enabled, M.Step, M.Enabled;
    if n == 0 {
      ws, ks := [ss[0].known], [];
    } else {
      ws, ks := LagIsHarmless(c, ss, es, n - 1);
      assert Enabled(c, ss[n - 1], es[n - 1]) && ss[n - 1 + 1] == Step(c, ss[n - 1], es[n - 1]);
      StepStaysBehind(c, ss[n - 1], es[n - 1]);
      ListedIsThere(c, ss[n - 1], es[n - 1]);
      StepIsVisible(c, ss[n - 1], es[n - 1]);
      var v := Visible(ss[n - 1], es[n - 1]);
      if v.Some? {
        Extended(c, ws, ks, v.value);
        ws, ks := ws + [M.Step(c, ws[|ks|], v.value)], ks + [v.value];
      }
    }
  }

  lemma ListedIsThere(c: Config, s: State, e: Event)
    requires Enabled(c, s, e)
    ensures (e.RunListed? ==> e.key in s.runs) && (e.CallListed? ==> e.name in s.calls)
  {
  }

  // ---- so the guarantees carry over to the children as they are --------------

  /** However far the listing lags, an ended WorkflowRun has no unfinished child. */
  lemma LaggingEndedMeansQuiet(c: Config, ss: seq<State>, es: seq<Event>, n: nat)
    requires NamesDistinct(c) && Behaviour(c, ss, es) && n < |ss| && ss[n].known.status.phase.Terminal()
    ensures Quiet(ss[n].runs, ss[n].calls)
  {
    var ws, ks := LagIsHarmless(c, ss, es, n);
    EndedMeansQuiet(c, ws, ks, |ks|);
  }

  /** A job has at most one child Run that has not really finished. */
  lemma LaggingAtMostOneActive(c: Config, ss: seq<State>, es: seq<Event>, n: nat, k: StepKey, other: StepKey)
    requires NamesDistinct(c) && Behaviour(c, ss, es) && n < |ss|
    requires k in ss[n].runs && other in ss[n].runs && k.job == other.job
    requires !ss[n].runs[k].phase.Terminal() && !ss[n].runs[other].phase.Terminal()
    ensures k == other
  {
    var ws, ks := LagIsHarmless(c, ss, es, n);
    AtMostOneActiveRunPerJob(c, ws, ks, |ks|, k, other);
  }

  /** A child Run exists only after everything it waits for has succeeded. */
  lemma LaggingStartsInOrder(c: Config, ss: seq<State>, es: seq<Event>, n: nat, k: StepKey)
    requires NamesDistinct(c) && Behaviour(c, ss, es) && n < |ss| && k in ss[n].runs
    ensures ss[n].known.status.jobs.Some? && InOrder(c, ss[n].known.status.jobs.value, k)
  {
    var ws, ks := LagIsHarmless(c, ss, es, n);
    ChildRunsStartInOrder(c, ws, ks, |ks|, k);
  }
}
