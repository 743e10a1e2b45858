/** No Pod is over-committed and every Run is counted exactly once, and exactly what that takes. */
module SchedulerTheorems {
  import opened Common
  import opened ResourceUsage
  import opened WorkflowStatus
  import opened AssumedReservations
  import opened SchedulerMachine

  // ---- frames ---------------------------------------------------------------

  /** Nothing about k changed except that it may have gained a reservation. */
  lemma CoveredKept(s: State, t: State, k: RunKey)
    requires k in s.log && k in t.log && t.log[k] == s.log[k] && Covered(s, k)
    requires k in s.seen ==> k in t.seen && t.seen[k] == s.seen[k]
    requires k in s.reservations ==> k in t.reservations && t.reservations[k].pod == s.reservations[k].pod
    ensures Covered(t, k)
  {
    forall pod | Occupies(t, k, pod) ensures exists b :: CoveredFrom(t, k, pod, b) {
      assert Occupies(s, k, pod);
      var b: nat :| CoveredFrom(s, k, pod, b);
      assert CoveredFrom(t, k, pod, b);
    }
  }

  lemma CapacityKept(c: Cluster, s: State, t: State, pod: PodKey, extra: ResourceList)
    requires WithinCapacity(c, s, pod, extra) && Tenants(t, pod) <= Tenants(s, pod)
    ensures WithinCapacity(c, t, pod, extra)
  {
    forall x ensures Total(c.requests, Tenants(t, pod), x) <= Total(c.requests, Tenants(s, pod), x) {
      TotalMonotone(c.requests, Tenants(t, pod), Tenants(s, pod), x);
    }
  }

  /** Steps that add no tenant and touch no flight keep the capacity half of the invariant. */
  lemma NoNewTenant(c: Cluster, s: State, t: State)
    requires Inv(c, s)
    requires forall k, pod :: Occupies(t, k, pod) ==> Occupies(s, k, pod)
    ensures forall pod :: WithinCapacity(c, t, pod, map[])
    ensures s.inflight.Some? ==>
              WithinCapacity(c, t, PodKey(s.inflight.value.key.ns, s.inflight.value.pod),
                  c.requests[s.inflight.value.key])
  {
    hide WithinCapacity;
    forall pod ensures WithinCapacity(c, t, pod, map[]) {
      TenantsShrink(s, t, pod);
      CapacityKept(c, s, t, pod, map[]);
    }
    if s.inflight.Some? {
      var f := s.inflight.value;
      TenantsShrink(s, t, PodKey(f.key.ns, f.pod));
      CapacityKept(c, s, t, PodKey(f.key.ns, f.pod), c.requests[f.key]);
    }
  }

  lemma TenantsShrink(s: State, t: State, pod: PodKey)
    requires forall k :: Occupies(t, k, pod.name) ==> Occupies(s, k, pod.name)
    ensures Tenants(t, pod) <= Tenants(s, pod)
  {
  }

  // ---- one step at a time ---------------------------------------------------

  lemma CreatedKeepsInv(c: Cluster, s: State, e: Event)
    requires Inv(c, s) && Enabled(c, s, e) && e.Created?
    ensures Inv(c, Step(c, s, e))
  {
    var t := Step(c, s, e);
    assert SameName(t.log[e.key], e.name);
    forall k | k in t.log && k != e.key ensures Covered(t, k) {
      CoveredKept(s, t, k);
    }
    forall k, pod | Occupies(t, k, pod) ensures Occupies(s, k, pod) {
      assert k != e.key;
    }
    hide WithinCapacity;
    NoNewTenant(c, s, t);
  }

  lemma MovedKeepsInv(c: Cluster, s: State, e: Event)
    requires Inv(c, s) && Enabled(c, s, e) && e.Moved?
    ensures Inv(c, Step(c, s, e))
  {
    hide WithinCapacity;
    var t := Step(c, s, e);
    forall k, pod | Occupies(t, k, pod) ensures Occupies(s, k, pod) {
    }
    NoNewTenant(c, s, t);
    MovedFaithful(c, s, e);
    forall k | k in t.log ensures Covered(t, k) {
      if k != e.key {
        CoveredKept(s, t, k);
      } else {
        MovedCovered(c, s, e);
      }
    }
  }

  lemma MovedFaithful(c: Cluster, s: State, e: Event)
    requires Faithful(c, s) && Enabled(c, s, e) && e.Moved?
    ensures Faithful(c, Step(c, s, e))
  {
    var name :| SameName(s.log[e.key], name);
    var t := Step(c, s, e);
    assert SameName(t.log[e.key], name);
  }

  lemma MovedCovered(c: Cluster, s: State, e: Event)
    requires e.Moved? && Covered(s, e.key) && Enabled(c, s, e)
    ensures Covered(Step(c, s, e), e.key)
  {
    var t := Step(c, s, e);
    forall pod | Occupies(t, e.key, pod) ensures exists b :: CoveredFrom(t, e.key, pod, b) {
      assert Occupies(s, e.key, pod);
      var b: nat :| CoveredFrom(s, e.key, pod, b);
      assert CoveredFrom(t, e.key, pod, b);
    }
  }

  lemma DeliveredKeepsInv(c: Cluster, s: State, e: Event)
    requires Inv(c, s) && Enabled(c, s, e) && e.Delivered?
    ensures Inv(c, Step(c, s, e))
  {
    hide WithinCapacity;
    var t := Step(c, s, e);
    forall k, pod | Occupies(t, k, pod) ensures Occupies(s, k, pod) {
    }
    NoNewTenant(c, s, t);
    forall k | k in t.log ensures Covered(t, k) {
      forall pod | Occupies(t, k, pod) ensures exists b :: CoveredFrom(t, k, pod, b) {
        assert Occupies(s, k, pod);
        var b: nat :| CoveredFrom(s, k, pod, b);
        assert CoveredFrom(t, k, pod, b);
      }
    }
  }

  /** Reservations may go, as long as no hidden Run loses its own. */
  lemma DropKeepsInv(c: Cluster, s: State, kept: Reservations)
    requires Inv(c, s) && s.inflight.None?
    requires forall k :: k in kept ==> k in s.reservations && kept[k] == s.reservations[k]
    requires forall k :: k in s.reservations && Hidden(s, k) ==> k in kept
    ensures Inv(c, s.(reservations := kept))
  {
    hide WithinCapacity;
    var t := s.(reservations := kept);
    forall k, pod | Occupies(t, k, pod) ensures Occupies(s, k, pod) {
    }
    NoNewTenant(c, s, t);
    forall k | k in t.log ensures Covered(t, k) {
      forall pod | Occupies(t, k, pod) ensures exists b :: CoveredFrom(t, k, pod, b) {
        assert Occupies(s, k, pod);
        var b: nat :| CoveredFrom(s, k, pod, b);
        assert s.seen[k] == b - 1 ==> Hidden(s, k);
        assert CoveredFrom(t, k, pod, b);
      }
    }
  }

  /** A hidden Run looks pending and unassigned to the informer, and is reserved. */
  lemma HiddenIsReserved(c: Cluster, s: State, k: RunKey)
    requires Inv(c, s) && k in s.log && Hidden(s, k)
    ensures Shown(s, k) && Unassigned(ShownState(s, k)) && k in s.reservations
    ensures ShownState(s, k).name == s.reservations[k].runName
  {
    var pod :| Occupies(s, k, pod) && !ShownOn(s, k, pod);
    assert Covered(s, k);
    var b: nat :| CoveredFrom(s, k, pod, b);
    assert s.seen[k] == b - 1;
  }

  lemma SyncKeepsInv(c: Cluster, s: State, ns: string)
    requires Inv(c, s) && s.inflight.None? && NoneHiddenElsewhere(s, ns)
    ensures Inv(c, s.(reservations := Synced(s.reservations, ViewOf(s, ns))))
  {
    forall k | k in s.reservations && Hidden(s, k) ensures k in Synced(s.reservations, ViewOf(s, ns)) {
      HiddenIsReserved(c, s, k);
    }
    hide WithinCapacity, Covered;
    DropKeepsInv(c, s, Synced(s.reservations, ViewOf(s, ns)));
  }

  lemma ObservedKeepsInv(c: Cluster, s: State, e: Event)
    requires Inv(c, s) && Enabled(c, s, e) && e.ObservedRun?
    ensures Inv(c, Step(c, s, e))
  {
    var kept := Observed(s.reservations, e.key, ShownState(s, e.key));
    forall k | k in s.reservations && Hidden(s, k) ensures k in kept {
      HiddenIsReserved(c, s, k);
    }
    hide WithinCapacity, Covered;
    DropKeepsInv(c, s, kept);
  }

  /** Tenants of a Pod are seen there or reserved there. */
  lemma TenantsAccounted(c: Cluster, s: State, pod: PodKey)
    requires Inv(c, s)
    ensures Tenants(s, pod) <= Occupants(ViewOf(s, pod.ns), pod.name) + Holders(s.reservations, pod.name)
  {
    forall k | k in Tenants(s, pod)
      ensures k in Occupants(ViewOf(s, pod.ns), pod.name) || k in Holders(s.reservations, pod.name)
    {
      assert Covered(s, k);
      var b: nat :| CoveredFrom(s, k, pod.name, b);
    }
  }

  /** What a cycle counts is at least what is really there. */
  lemma CountedIsEnough(c: Cluster, s: State, pod: PodKey, x: string)
    requires Inv(c, s)
    ensures Total(c.requests, Tenants(s, pod), x)
         <= Total(c.requests, Occupants(ViewOf(s, pod.ns), pod.name), x) + Assumed(s.reservations, pod.name, x)
  {
    var seen, held := Occupants(ViewOf(s, pod.ns), pod.name), Holders(s.reservations, pod.name);
    TenantsAccounted(c, s, pod);
    TotalMonotone(c.requests, Tenants(s, pod), seen + (held - seen), x);
    TotalUnion(c.requests, seen, held - seen, x);
    TotalMonotone(c.requests, held - seen, held, x);
    TotalSame(c.requests, Requests(s.reservations), held, x);
  }

  lemma RoomIsEnough(c: Cluster, s: State, key: RunKey, pod: string)
    requires Inv(c, s) && key in c.requests
    requires Room(c, ViewOf(s, key.ns), s.reservations, PodKey(key.ns, pod), c.requests[key])
    ensures WithinCapacity(c, s, PodKey(key.ns, pod), c.requests[key])
  {
    var p := PodKey(key.ns, pod);
    forall x | Total(c.requests, Tenants(s, p), x) + Amount(c.requests[key], x) > 0
      ensures x in CapacityOf(c, p)
      ensures Total(c.requests, Tenants(s, p), x) + Amount(c.requests[key], x) <= CapacityOf(c, p)[x]
    {
      CountedIsEnough(c, s, p, x);
      assert WithinCapacity(c, s, p, map[]);
      assert Amount(map[], x) == 0;
    }
  }

  /** A Run the informer shows unassigned, and that is not hidden, occupies nothing. */
  lemma NotOccupying(s: State, key: RunKey, pod: string)
    requires Shown(s, key) && Unassigned(ShownState(s, key)) && !Hidden(s, key)
    ensures !Occupies(s, key, pod)
  {
    assert !ShownOn(s, key, pod);
  }

  /** The state once the Run is assumed onto the Pod and its bind is under way. */
  ghost function Reserving(c: Cluster, s: State, key: RunKey, pod: string): State
    requires Shown(s, key) && key in c.requests
  {
    s.(reservations := s.reservations[key := Reservation(ShownState(s, key).name, pod, c.requests[key])],
       inflight := Some(Flight(key, pod, s.seen[key])))
  }

  lemma ReservingFaithful(c: Cluster, s: State, key: RunKey, pod: string)
    requires Faithful(c, s) && Shown(s, key) && key in c.requests
    ensures Faithful(c, Reserving(c, s, key, pod))
  {
    var name :| SameName(s.log[key], name);
  }

  lemma ReservingTenants(c: Cluster, s: State, key: RunKey, pod: string, p: PodKey)
    requires Shown(s, key) && key in c.requests
    ensures Tenants(Reserving(c, s, key, pod), p) == Tenants(s, p)
  {
    forall k | k in s.log ensures Occupies(Reserving(c, s, key, pod), k, p.name) <==> Occupies(s, k, p.name) {
    }
  }

  lemma ReservingCovered(c: Cluster, s: State, key: RunKey, pod: string, k: RunKey)
    requires Shown(s, key) && key in c.requests && k in s.log && Covered(s, k) && (forall p :: !Occupies(s, key, p))
    ensures Covered(Reserving(c, s, key, pod), k)
  {
    var t := Reserving(c, s, key, pod);
    if k == key {
      assert forall p :: Occupies(t, key, p) == Occupies(s, key, p);
    } else {
      CoveredKept(s, t, k);
    }
  }

  lemma ReservationAdded(c: Cluster, s: State, key: RunKey, pod: string)
    requires Inv(c, s) && s.inflight.None? && Shown(s, key) && Unassigned(ShownState(s, key)) && pod != ""
    requires key in c.requests
    requires !Hidden(s, key)
    requires Room(c, ViewOf(s, key.ns), s.reservations, PodKey(key.ns, pod), c.requests[key])
    ensures Inv(c, Reserving(c, s, key, pod))
  {
    var t := Reserving(c, s, key, pod);
    RoomIsEnough(c, s, key, pod);
    forall p ensures !Occupies(s, key, p) {
      NotOccupying(s, key, p);
    }
    hide WithinCapacity, Covered, Faithful, Tenants, Room;
    ReservingFaithful(c, s, key, pod);
    forall p ensures WithinCapacity(c, t, p, map[]) {
      ReservingTenants(c, s, key, pod, p);
      CapacityKept(c, s, t, p, map[]);
    }
    ReservingTenants(c, s, key, pod, PodKey(key.ns, pod));
    CapacityKept(c, s, t, PodKey(key.ns, pod), c.requests[key]);
    forall k | k in t.log ensures Covered(t, k) {
      ReservingCovered(c, s, key, pod, k);
    }
    assert forall p :: Occupies(t, key, p) == Occupies(s, key, p);
  }

  lemma ReserveKeepsInv(c: Cluster, s: State, e: Event)
    requires Inv(c, s) && Enabled(c, s, e) && Disciplined(c, s, e) && e.ReserveTried?
    ensures Inv(c, Step(c, s, e))
  {
    hide Inv, Hidden;
    var view := ViewOf(s, e.key.ns);
    var synced := Synced(s.reservations, view);
    SyncKeepsInv(c, s, e.key.ns);
    var m := s.(reservations := synced);
    assert ViewOf(m, e.key.ns) == view;
    if Admits(c, s, e.key, e.pod) {
      SameHidden(s, synced, e.key);
      ReservationAdded(c, m, e.key, e.pod);
    }
  }

  lemma BoundTenants(s: State, t: State, f: Flight, pod: PodKey)
    requires f.key in s.log && Current(s, f.key) && f.pod != ""
    requires t.log == s.log[f.key := s.log[f.key]
               + [Present(RunState(CurrentState(s, f.key).name, RunScheduled, f.pod))]]
    requires forall p :: !Occupies(s, f.key, p)
    ensures pod != PodKey(f.key.ns, f.pod) ==> Tenants(t, pod) == Tenants(s, pod)
    ensures pod == PodKey(f.key.ns, f.pod) ==> Tenants(t, pod) == Tenants(s, pod) + {f.key} && f.key !in Tenants(s, pod)
  {
    forall k | k in s.log && k != f.key ensures Occupies(t, k, pod.name) <==> Occupies(s, k, pod.name) {
    }
    assert Occupies(t, f.key, f.pod);
  }

  lemma BoundCapacity(c: Cluster, s: State, t: State, f: Flight, pod: PodKey)
    requires Inv(c, s) && s.inflight == Some(f) && Current(s, f.key)
    requires t.log == s.log[f.key := s.log[f.key]
               + [Present(RunState(CurrentState(s, f.key).name, RunScheduled, f.pod))]]
    ensures WithinCapacity(c, t, pod, map[])
  {
    BoundTenants(s, t, f, pod);
    assert WithinCapacity(c, s, pod, map[]);
    if pod == PodKey(f.key.ns, f.pod) {
      forall x
        ensures Total(c.requests, Tenants(t, pod), x)
             == Total(c.requests, Tenants(s, pod), x) + Amount(c.requests[f.key], x)
      {
        TotalSplit(c.requests, Tenants(t, pod), f.key, x);
        assert Tenants(t, pod) - {f.key} == Tenants(s, pod);
      }
      assert WithinCapacity(c, s, pod, c.requests[f.key]);
    }
  }

  lemma BindCovered(c: Cluster, s: State, e: Event, k: RunKey)
    requires Inv(c, s) && Enabled(c, s, e) && e.BindSucceeded? && k in s.log
    ensures Covered(Step(c, s, e), k)
  {
    hide WithinCapacity;
    var f := s.inflight.value;
    if k != f.key {
      CoveredKept(s, Step(c, s, e), k);
    } else {
      assert CoveredFrom(Step(c, s, e), k, f.pod, f.version + 1);
    }
  }

  lemma BindFaithful(c: Cluster, s: State, e: Event)
    requires Faithful(c, s) && Enabled(c, s, e) && e.BindSucceeded?
    ensures Faithful(c, Step(c, s, e))
  {
    var f := s.inflight.value;
    var name :| SameName(s.log[f.key], name);
    assert SameName(Step(c, s, e).log[f.key], name);
  }

  lemma BindKeepsInv(c: Cluster, s: State, e: Event)
    requires Inv(c, s) && Enabled(c, s, e) && e.BindSucceeded?
    ensures Inv(c, Step(c, s, e))
  {
    hide WithinCapacity, Covered, Faithful;
    var t := Step(c, s, e);
    forall pod ensures WithinCapacity(c, t, pod, map[]) {
      BoundCapacity(c, s, t, s.inflight.value, pod);
    }
    BindFaithful(c, s, e);
    forall k | k in t.log ensures Covered(t, k) {
      FlightKnown(c, s);
      BindCovered(c, s, e, k);
    }
  }

  lemma FlightKnown(c: Cluster, s: State)
    requires FlightOk(c, s) && s.inflight.Some?
    ensures s.inflight.value.key in s.log
  {
  }

  lemma BindFailedKeepsInv(c: Cluster, s: State, e: Event)
    requires Inv(c, s) && Enabled(c, s, e) && e.BindFailed?
    ensures Inv(c, Step(c, s, e))
  {
    hide WithinCapacity;
    var m := s.(inflight := None);
    forall k, pod | Occupies(m, k, pod) ensures Occupies(s, k, pod) {
    }
    NoNewTenant(c, s, m);
    forall k | k in m.log ensures Covered(m, k) {
      CoveredKept(s, m, k);
    }
    var kept := m.reservations - {s.inflight.value.key};
    forall k | k in m.reservations && Hidden(m, k) ensures k in kept {
      assert forall pod :: !Occupies(s, s.inflight.value.key, pod);
    }
    DropKeepsInv(c, m, kept);
  }

  lemma StepKeepsInv(c: Cluster, s: State, e: Event)
    requires Inv(c, s) && Enabled(c, s, e) && Disciplined(c, s, e)
    ensures Inv(c, Step(c, s, e))
  {
    hide Inv;
    match e
    case Created(_, _) => CreatedKeepsInv(c, s, e);
    case Moved(_, _) => MovedKeepsInv(c, s, e);
    case Delivered(_, _) => DeliveredKeepsInv(c, s, e);
    case ObservedRun(_) => ObservedKeepsInv(c, s, e);
    case SnapshotTaken(ns) => SyncKeepsInv(c, s, ns);
    case ReserveTried(_, _) => ReserveKeepsInv(c, s, e);
    case BindSucceeded => BindKeepsInv(c, s, e);
    case BindFailed => BindFailedKeepsInv(c, s, e);
  }

  lemma {:induction false} BehaviourKeepsInv(c: Cluster, ss: seq<State>, es: seq<Event>, n: nat)
    requires Behaviour(c, ss, es) && n < |ss|
    ensures Inv(c, ss[n])
  {
    if n == 0 {
      NothingYet(c, ss[0]);
    } else {
      BehaviourKeepsInv(c, ss, es, n - 1);
      assert Enabled(c, ss[n - 1], es[n - 1]) && ss[n - 1 + 1] == Step(c, ss[n - 1], es[n - 1]);
      StepKeepsInv(c, ss[n - 1], es[n - 1]);
    }
  }

  lemma NothingYet(c: Cluster, s: State)
    requires s == State(map[], map[], map[], None)
    ensures Inv(c, s)
  {
    forall pod ensures Tenants(s, pod) == {} {
    }
  }

  // ---- the theorems ---------------------------------------------------------

  /** Over every interleaving the Runs assigned to a Pod stay within its capacity in every resource. */
  lemma NeverOvercommitted(c: Cluster, ss: seq<State>, es: seq<Event>, n: nat, pod: PodKey, x: string)
    requires Behaviour(c, ss, es) && n < |ss|
    ensures Total(c.requests, Tenants(ss[n], pod), x) <= Amount(CapacityOf(c, pod), x)
  {
    BehaviourKeepsInv(c, ss, es, n);
    assert WithinCapacity(c, ss[n], pod, map[]);
    assert Amount(map[], x) == 0;
  }

  /**
    * Right after a synchronisation every Run on a Pod is counted exactly once: as observed usage or as
    * an assumption, never both and never neither.
    */
  lemma CountedExactlyOnce(c: Cluster, ss: seq<State>, es: seq<Event>, n: nat, k: RunKey, pod: PodKey)
    requires Behaviour(c, ss, es) && n < |ss| && k in Tenants(ss[n], pod)
    ensures var view := ViewOf(ss[n], pod.ns);
            var synced := Synced(ss[n].reservations, view);
            k in Occupants(view, pod.name) <==> k !in Holders(synced, pod.name)
  {
    BehaviourKeepsInv(c, ss, es, n);
    TenantsAccounted(c, ss[n], pod);
    if Hidden(ss[n], k) {
      HiddenIsReserved(c, ss[n], k);
    } else {
      assert ShownOn(ss[n], k, pod.name);
    }
  }

  // ---- what the discipline is for -------------------------------------------

  lemma SameHidden(s: State, reservations: Reservations, k: RunKey)
    ensures Hidden(s.(reservations := reservations), k) <==> Hidden(s, k)
  {
    var t := s.(reservations := reservations);
    assert forall pod :: Occupies(t, k, pod) == Occupies(s, k, pod) && ShownOn(t, k, pod) == ShownOn(s, k, pod);
  }

  /** Dropping reservations keeps the accounts right exactly when no hidden Run loses its own. */
  lemma DropKeepsInvIff(c: Cluster, s: State, kept: Reservations)
    requires Inv(c, s) && s.inflight.None?
    requires forall k :: k in kept ==> k in s.reservations && kept[k] == s.reservations[k]
    ensures Inv(c, s.(reservations := kept)) <==> forall k :: k in s.reservations && Hidden(s, k) ==> k in kept
  {
    var t := s.(reservations := kept);
    if Inv(c, t) {
      forall k | k in s.reservations && Hidden(s, k) ensures k in kept {
        SameHidden(s, kept, k);
        HiddenIsReserved(c, t, k);
      }
    }
    hide Inv;
    if forall k :: k in s.reservations && Hidden(s, k) ==> k in kept {
      DropKeepsInv(c, s, kept);
    }
  }

  /**
    * Synchronising against the listing of one namespace is sound exactly when no Run of another
    * namespace is bound, reserved and not yet shown.
    */
  lemma SyncSoundIff(c: Cluster, s: State, ns: string)
    requires Inv(c, s) && s.inflight.None?
    ensures Inv(c, s.(reservations := Synced(s.reservations, ViewOf(s, ns))))
       <==> NoneHiddenElsewhere(s, ns)
  {
    var kept := Synced(s.reservations, ViewOf(s, ns));
    forall k | k in s.reservations && Hidden(s, k) ensures k in kept <==> k.ns == ns {
      HiddenIsReserved(c, s, k);
    }
    hide Inv, Hidden;
    DropKeepsInvIff(c, s, kept);
  }

  /** Releasing a reservation after a failed bind is sound exactly when its Run is not hidden. */
  lemma ReleaseSoundIff(c: Cluster, s: State, key: RunKey)
    requires Inv(c, s) && s.inflight.None?
    ensures Inv(c, s.(reservations := s.reservations - {key})) <==> (key in s.reservations ==> !Hidden(s, key))
  {
    hide Inv, Hidden;
    DropKeepsInvIff(c, s, s.reservations - {key});
  }

  /**
    * Nothing less would do: from a sound state a step keeps the accounts right exactly when it is
    * disciplined.
    */
  lemma StepSoundIff(c: Cluster, s: State, e: Event)
    requires Inv(c, s) && Enabled(c, s, e)
    ensures Inv(c, Step(c, s, e)) <==> Disciplined(c, s, e)
  {
    if Disciplined(c, s, e) {
      StepKeepsInv(c, s, e);
    } else if e.SnapshotTaken? {
      SyncSoundIff(c, s, e.ns);
    } else {
      UndisciplinedReserve(c, s, e);
    }
  }

  lemma UndisciplinedReserve(c: Cluster, s: State, e: Event)
    requires Inv(c, s) && Enabled(c, s, e) && e.ReserveTried? && !Disciplined(c, s, e)
    ensures !Inv(c, Step(c, s, e))
  {
    if NoneHiddenElsewhere(s, e.key.ns) {
      var pod :| Occupies(s, e.key, pod) && !ShownOn(s, e.key, pod);
      assert Occupies(Step(c, s, e), e.key, pod);
    } else {
      ForgetfulReserve(c, s, e);
    }
  }

  lemma ForgetfulReserve(c: Cluster, s: State, e: Event)
    requires Inv(c, s) && Enabled(c, s, e) && e.ReserveTried? && !NoneHiddenElsewhere(s, e.key.ns)
    ensures !Inv(c, Step(c, s, e))
  {
    var t := Step(c, s, e);
    var k :| k in s.reservations && k.ns != e.key.ns && Hidden(s, k);
    var pod :| Occupies(s, k, pod) && !ShownOn(s, k, pod);
    assert Occupies(t, k, pod) && !ShownOn(t, k, pod) && k !in t.reservations;
    hide Inv, Step;
    if Inv(c, t) {
      HiddenIsReserved(c, t, k);
      assert false;
    }
  }
}
