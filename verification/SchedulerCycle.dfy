/** One scheduling cycle through the cache is one step of the scheduling machine. */
module SchedulerCycle {
  import opened Common
  import opened ResourceUsage
  import opened AssumedReservations
  import opened SchedulerMachine

  /**
    * Counts what the listing shows, then reserves: the cache ends up as the machine's step says, and the
    * cycle goes on to bind exactly when the machine has a bind in flight.
    */
  method ReserveForRun(
    cache: AssumedReservationCache, ghost c: Cluster, ghost s: State,
    view: RunView, requests: map<RunKey, ResourceList>, capacity: ResourceList, key: RunKey, pod: string)
    returns (reserved: bool)
    requires Enabled(c, s, ReserveTried(key, pod)) && cache.reservations == s.reservations
    requires view == ViewOf(s, key.ns) && requests == c.requests && view.Keys <= requests.Keys
    requires capacity == CapacityOf(c, PodKey(key.ns, pod))
    modifies cache
    ensures cache.reservations == Step(c, s, ReserveTried(key, pod)).reservations
    ensures reserved <==> Step(c, s, ReserveTried(key, pod)).inflight == Some(Flight(key, pod, s.seen[key]))
  {
    var actual := AssignedRunUsage(view, requests);
    RoomIsCacheRoom(c, view, actual, Synced(s.reservations, view), PodKey(key.ns, pod), requests[key]);
    reserved := cache.Reserve(view, actual, key, view[key].name, pod, true, capacity, requests[key]);
  }

  /** Loading a snapshot is the machine's synchronisation, and reports observed plus assumed usage. */
  method LoadSnapshot(
    cache: AssumedReservationCache, ghost c: Cluster, ghost s: State,
    view: RunView, requests: map<RunKey, ResourceList>, ghost ns: string)
    returns (usage: UsageByPod)
    requires Enabled(c, s, SnapshotTaken(ns)) && cache.reservations == s.reservations
    requires view == ViewOf(s, ns) && requests == c.requests && view.Keys <= requests.Keys
    modifies cache
    ensures cache.reservations == Step(c, s, SnapshotTaken(ns)).reservations
    ensures forall pod, x ::
              Used(usage, pod, x) == Total(c.requests, Occupants(view, pod), x) + Assumed(cache.reservations, pod, x)
  {
    var actual := AssignedRunUsage(view, requests);
    usage := cache.Snapshot(actual, view);
  }

  /** Losing the write of a bind releases its reservation, as the machine's failed bind does. */
  method ReleaseAfterFailedBind(cache: AssumedReservationCache, ghost c: Cluster, ghost s: State, key: RunKey)
    requires Enabled(c, s, BindFailed) && cache.reservations == s.reservations && key == s.inflight.value.key
    modifies cache
    ensures cache.reservations == Step(c, s, BindFailed).reservations && Step(c, s, BindFailed).inflight.None?
  {
    cache.Release(key);
  }

  /** The informer shows a Run: the machine's observation. */
  method ObserveRun(cache: AssumedReservationCache, ghost c: Cluster, ghost s: State, key: RunKey, shown: RunState)
    requires Enabled(c, s, ObservedRun(key)) && cache.reservations == s.reservations && shown == ShownState(s, key)
    modifies cache
    ensures cache.reservations == Step(c, s, ObservedRun(key)).reservations
  {
    cache.Observe(key, shown);
  }
}
