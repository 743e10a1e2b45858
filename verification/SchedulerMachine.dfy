/**
  * Scheduling against a lagging informer: every interleaving of reserving, binding, releasing,
  * observing, informer delivery and Run progress.
  */
module SchedulerMachine {
  import opened Common
  import opened ResourceUsage
  import opened WorkflowStatus
  import opened AssumedReservations

  datatype PodKey = PodKey(ns: string, name: string)

  /** Requests are part of the immutable Run specification; Pod capacity is fixed. */
  datatype Cluster = Cluster(requests: map<RunKey, ResourceList>, capacity: map<PodKey, ResourceList>)

  datatype Version = Present(state: RunState) | Deleted

  /** A reserved Run whose assignment is being written, with the version it was read at. */
  datatype Flight = Flight(key: RunKey, pod: string, version: nat)

  /** log holds every version of every Run; seen is the version the informer shows. */
  datatype State = State(
    log: map<RunKey, seq<Version>>,
    seen: map<RunKey, nat>,
    reservations: Reservations,
    inflight: Option<Flight>)

  datatype Event =
    | Created(key: RunKey, name: string)
    | Moved(key: RunKey, next: Version)
    | Delivered(key: RunKey, version: nat)
    | ObservedRun(key: RunKey)
    | SnapshotTaken(ns: string)
    | ReserveTried(key: RunKey, pod: string)
    | BindSucceeded
    | BindFailed

  // ---- state readers --------------------------------------------------------

  ghost predicate Shown(s: State, k: RunKey) {
    k in s.log && k in s.seen && s.seen[k] < |s.log[k]| && s.log[k][s.seen[k]].Present?
  }

  ghost function ShownState(s: State, k: RunKey): RunState
    requires Shown(s, k)
  {
    s.log[k][s.seen[k]].state
  }

  /** What listing a namespace through the informer returns. */
  ghost function ViewOf(s: State, ns: string): RunView {
    map k | k in s.log && k.ns == ns && Shown(s, k) :: ShownState(s, k)
  }

  ghost predicate Current(s: State, k: RunKey) {
    k in s.log && s.log[k] != [] && s.log[k][|s.log[k]| - 1].Present?
  }

  ghost function CurrentState(s: State, k: RunKey): RunState
    requires Current(s, k)
  {
    s.log[k][|s.log[k]| - 1].state
  }

  ghost predicate Occupies(s: State, k: RunKey, pod: string) {
    Current(s, k) && Consuming(CurrentState(s, k)) && CurrentState(s, k).assignedPod == pod
  }

  /** The Runs that really occupy a Pod. */
  ghost function Tenants(s: State, pod: PodKey): set<RunKey> {
    set k | k in s.log && k.ns == pod.ns && Occupies(s, k, pod.name)
  }

  ghost function CapacityOf(c: Cluster, pod: PodKey): ResourceList {
    if pod in c.capacity then c.capacity[pod] else map[]
  }

  /** Room for the Run as a scheduling cycle computes it from the view and the reservations. */
  ghost predicate Room(c: Cluster, view: RunView, reservations: Reservations, pod: PodKey, request: ResourceList) {
    forall x :: x in request && request[x] > 0 ==>
      && x in CapacityOf(c, pod)
      && Total(c.requests, Occupants(view, pod.name), x) + Assumed(reservations, pod.name, x)
          + request[x] <= CapacityOf(c, pod)[x]
  }

  /** The cache's own availability test is Room, for observed usage computed from the same view. */
  lemma RoomIsCacheRoom(
      c: Cluster, view: RunView, actual: UsageByPod, reservations: Reservations, pod: PodKey, request: ResourceList)
    requires UsageMatches(actual, view, c.requests)
    ensures Room(c, view, reservations, pod, request) <==>
              HasRoom(CapacityOf(c, pod), actual, reservations, pod.name, request)
  {
  }

  // ---- steps ----------------------------------------------------------------

  ghost predicate Enabled(c: Cluster, s: State, e: Event) {
    match e
    case Created(key, _) => key !in s.log && key in c.requests
    case Moved(key, next) =>
      // Only a bind makes a Run occupy a Pod; other writers keep it there or take it away.
      && Current(s, key)
      && (next.Present? ==> next.state.name == CurrentState(s, key).name)
      && (next.Present? && Consuming(next.state) ==> Occupies(s, key, next.state.assignedPod))
    case Delivered(key, version) => key in s.log && version < |s.log[key]| && (key in s.seen ==> s.seen[key] <= version)
    case ObservedRun(key) => s.inflight.None? && Shown(s, key)
    case SnapshotTaken(_) => s.inflight.None?
    case ReserveTried(key, pod) =>
           s.inflight.None? && Shown(s, key) && Unassigned(ShownState(s, key)) && pod != "" && key in c.requests
    case BindSucceeded =>
      s.inflight.Some? && Current(s, s.inflight.value.key)
          && |s.log[s.inflight.value.key]| == s.inflight.value.version + 1
    case BindFailed => s.inflight.Some?
  }

  ghost function Step(c: Cluster, s: State, e: Event): State
    requires Enabled(c, s, e)
  {
    match e
    case Created(key, name) => s.(log := s.log[key := [Present(RunState(name, RunPending, ""))]])
    case Moved(key, next) => s.(log := s.log[key := s.log[key] + [next]])
    case Delivered(key, version) => s.(seen := s.seen[key := version])
    case ObservedRun(key) => s.(reservations := Observed(s.reservations, key, ShownState(s, key)))
    case SnapshotTaken(ns) => s.(reservations := Synced(s.reservations, ViewOf(s, ns)))
    case ReserveTried(key, pod) =>
      var view := ViewOf(s, key.ns);
      var synced := Synced(s.reservations, view);
      if Room(c, view, synced, PodKey(key.ns, pod), c.requests[key]) then
        s.(reservations := synced[key := Reservation(ShownState(s, key).name, pod, c.requests[key])],
           inflight := Some(Flight(key, pod, s.seen[key])))
      else s.(reservations := synced)
    case BindSucceeded =>
      var f := s.inflight.value;
      s.(log := s.log[f.key := s.log[f.key] + [Present(RunState(CurrentState(s, f.key).name, RunScheduled, f.pod))]],
         inflight := None)
    case BindFailed => s.(reservations := s.reservations - {s.inflight.value.key}, inflight := None)
  }

  /** The informer shows the Run on the Pod. */
  ghost predicate ShownOn(s: State, k: RunKey, pod: string) {
    Shown(s, k) && Consuming(ShownState(s, k)) && ShownState(s, k).assignedPod == pod
  }

  /** The Run occupies a Pod and the informer does not show it there yet. */
  ghost predicate Hidden(s: State, k: RunKey) {
    exists pod :: Occupies(s, k, pod) && !ShownOn(s, k, pod)
  }

  /** No Run of another namespace is reserved and hidden. */
  ghost predicate NoneHiddenElsewhere(s: State, ns: string) {
    forall k :: k in s.reservations && k.ns != ns ==> !Hidden(s, k)
  }

  /** A cycle for the Run would find room on the Pod. */
  ghost predicate Admits(c: Cluster, s: State, key: RunKey, pod: string)
    requires key in c.requests
  {
    var view := ViewOf(s, key.ns);
    Room(c, view, Synced(s.reservations, view), PodKey(key.ns, pod), c.requests[key])
  }

  /**
    * The two things the scheduler does not check: a synchronisation forgets no hidden Run of another
    * namespace, and a hidden Run is not planned again.
    */
  ghost predicate Disciplined(c: Cluster, s: State, e: Event)
    requires Enabled(c, s, e)
  {
    match e
    case SnapshotTaken(ns) => NoneHiddenElsewhere(s, ns)
    case ReserveTried(key, pod) => NoneHiddenElsewhere(s, key.ns) && (Admits(c, s, key, pod) ==> !Hidden(s, key))
    case _ => true
  }

  ghost predicate Behaviour(c: Cluster, ss: seq<State>, es: seq<Event>) {
    && |ss| == |es| + 1 && ss[0] == State(map[], map[], map[], None)
    && forall i :: 0 <= i < |es| ==>
         Enabled(c, ss[i], es[i]) && Disciplined(c, ss[i], es[i]) && ss[i + 1] == Step(c, ss[i], es[i])
  }

  // ---- the invariant --------------------------------------------------------

  /** Since version b the Run has occupied the pod; before that it was pending and unassigned. */
  ghost predicate BoundAt(log: seq<Version>, b: nat, pod: string) {
    && 0 < b < |log|
    && log[b - 1].Present? && Unassigned(log[b - 1].state)
    && forall i :: b <= i < |log| ==> log[i].Present? && Consuming(log[i].state) && log[i].state.assignedPod == pod
  }

  /** A Run that occupies a Pod is either shown there by the informer or still reserved there. */
  ghost predicate CoveredFrom(s: State, k: RunKey, pod: string, b: nat) {
    && k in s.log && BoundAt(s.log[k], b, pod)
    && k in s.seen && b - 1 <= s.seen[k] < |s.log[k]|
    && (s.seen[k] == b - 1 ==> k in s.reservations && s.reservations[k].pod == pod)
  }

  ghost predicate Covered(s: State, k: RunKey) {
    forall pod :: Occupies(s, k, pod) ==> exists b :: CoveredFrom(s, k, pod, b)
  }

  ghost predicate SameName(log: seq<Version>, name: string) {
    forall i :: 0 <= i < |log| && log[i].Present? ==> log[i].state.name == name
  }

  /** Every name agrees with the Run's own; reservations carry the Run's request. */
  ghost predicate Faithful(c: Cluster, s: State) {
    && (forall k :: k in s.log ==> k in c.requests && s.log[k] != [] && exists name :: SameName(s.log[k], name))
    && (forall k :: k in s.seen ==> k in s.log && s.seen[k] < |s.log[k]|)
    && (forall k :: k in s.reservations ==>
          k in s.log && s.reservations[k].request == c.requests[k] && SameName(s.log[k], s.reservations[k].runName))
  }

  /** The Pod's tenants and the extra request stay within its capacity. */
  ghost predicate WithinCapacity(c: Cluster, s: State, pod: PodKey, extra: ResourceList) {
    forall x :: Total(c.requests, Tenants(s, pod), x) + Amount(extra, x) > 0 ==>
      x in CapacityOf(c, pod) && Total(c.requests, Tenants(s, pod), x) + Amount(extra, x) <= CapacityOf(c, pod)[x]
  }

  ghost predicate FlightOk(c: Cluster, s: State) {
    s.inflight.Some? ==>
      var f := s.inflight.value;
      && f.pod != "" && f.key in c.requests && f.key in s.log && f.version < |s.log[f.key]|
      && s.log[f.key][f.version].Present? && Unassigned(s.log[f.key][f.version].state)
      && f.key in s.seen && f.version <= s.seen[f.key]
      && f.key in s.reservations && s.reservations[f.key].pod == f.pod
      && (forall pod :: !Occupies(s, f.key, pod))
      && WithinCapacity(c, s, PodKey(f.key.ns, f.pod), c.requests[f.key])
  }

  ghost predicate Inv(c: Cluster, s: State) {
    && Faithful(c, s)
    && (forall k :: k in s.log ==> Covered(s, k))
    && FlightOk(c, s)
    && forall pod :: WithinCapacity(c, s, pod, map[])
  }
}
