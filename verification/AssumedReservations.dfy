/** The scheduler's assumption cache: assignments made but not yet seen through the Run informer. */
module AssumedReservations {
  import opened ResourceUsage
  import opened WorkflowStatus

  /** What a Run looks like to the scheduler. */
  datatype RunState = RunState(name: string, phase: RunPhase, assignedPod: string)

  type RunView = map<RunKey, RunState>

  datatype Reservation = Reservation(runName: string, pod: string, request: ResourceList)

  type Reservations = map<RunKey, Reservation>

  predicate Unassigned(s: RunState) {
    s.phase.RunPending? && s.assignedPod == ""
  }

  predicate Consuming(s: RunState) {
    s.assignedPod != "" && (s.phase.RunScheduled? || s.phase.RunRunning? || s.phase.RunReady?)
  }

  // ---- specification --------------------------------------------------------

  predicate StillAssumed(view: RunView, k: RunKey, r: Reservation) {
    k in view && Unassigned(view[k]) && view[k].name == r.runName
  }

  ghost function Synced(reservations: Reservations, view: RunView): Reservations {
    map k | k in reservations && StillAssumed(view, k, reservations[k]) :: reservations[k]
  }

  ghost function Observed(reservations: Reservations, k: RunKey, s: RunState): Reservations {
    if s.assignedPod != "" || !s.phase.RunPending? then reservations - {k} else reservations
  }

  /** A Run takes room on its Pod from its assignment until it finalizes or ends. */
  lemma ConsumingIff(s: RunState)
    ensures Consuming(s) <==>
            s.assignedPod != "" && !s.phase.RunPending? && !s.phase.RunFinalizing? && !s.phase.Terminal()
  {
  }

  /** Seeing one Run settles its own reservation as the next synchronisation would, and no other. */
  lemma ObservedIsSynced(reservations: Reservations, view: RunView, k: RunKey)
    requires k in view && k in reservations ==> view[k].name == reservations[k].runName
    requires k in view
    ensures k in Observed(reservations, k, view[k]) <==> k in Synced(reservations, view)
    ensures Observed(reservations, k, view[k]) - {k} == reservations - {k}
    ensures Synced(Observed(reservations, k, view[k]), view) == Synced(reservations, view)
  {
  }

  ghost function Requests(reservations: Reservations): map<RunKey, ResourceList> {
    map k | k in reservations :: reservations[k].request
  }

  ghost function Holders(reservations: Reservations, pod: string): set<RunKey> {
    set k | k in reservations && reservations[k].pod == pod
  }

  ghost function Assumed(reservations: Reservations, pod: string, resource: string): nat {
    Total(Requests(reservations), Holders(reservations, pod), resource)
  }

  /** The Runs the view shows as occupying the Pod. */
  ghost function Occupants(view: RunView, pod: string): set<RunKey> {
    set k | k in view && Consuming(view[k]) && view[k].assignedPod == pod
  }

  ghost predicate UsageMatches(usage: UsageByPod, view: RunView, requests: map<RunKey, ResourceList>) {
    forall p, x :: Used(usage, p, x) == Total(requests, Occupants(view, p), x)
  }

  /** There is room on the Pod next to what it is observed and assumed to run. */
  ghost predicate HasRoom(
      capacity: ResourceList, actual: UsageByPod, reservations: Reservations, pod: string, request: ResourceList) {
    forall x :: x in request && request[x] > 0 ==>
      x in capacity && Used(actual, pod, x) + Assumed(reservations, pod, x) + request[x] <= capacity[x]
  }

  // ---- observed usage -------------------------------------------------------

  /** Usage of the Runs a namespace listing shows as assigned. */
  method AssignedRunUsage(view: RunView, requests: map<RunKey, ResourceList>) returns (usage: UsageByPod)
    requires view.Keys <= requests.Keys
    ensures UsageMatches(usage, view, requests)
  {
    usage := map[];
    var rest := view.Keys;
    ghost var done: RunView := map[];
    while rest != {}
      invariant rest <= view.Keys && done == view - rest
      invariant UsageMatches(usage, done, requests)
    {
      var k :| k in rest;
      ghost var before := usage;
      if Consuming(view[k]) {
        usage := AddUsage(usage, view[k].assignedPod, requests[k]);
      }
      forall p, x ensures Used(usage, p, x) == Total(requests, Occupants(done[k := view[k]], p), x) {
        OccupantAdded(done, requests, k, view[k], p, x);
        assert Used(before, p, x) == Total(requests, Occupants(done, p), x);
      }
      rest := rest - {k};
      done := done[k := view[k]];
    }
    assert done == view;
  }

  lemma OccupantAdded(
      done: RunView, requests: map<RunKey, ResourceList>, k: RunKey, s: RunState, pod: string, resource: string)
    requires k !in done
    ensures Total(requests, Occupants(done[k := s], pod), resource)
         == Total(requests, Occupants(done, pod), resource)
            + if Consuming(s) && s.assignedPod == pod then RequestOf(requests, k, resource) else 0
  {
    var after := done[k := s];
    if Consuming(s) && s.assignedPod == pod {
      assert Occupants(after, pod) == Occupants(done, pod) + {k};
      assert Occupants(after, pod) - {k} == Occupants(done, pod);
      TotalSplit(requests, Occupants(after, pod), k, resource);
    } else {
      assert Occupants(after, pod) == Occupants(done, pod);
    }
  }

  lemma HolderAdded(done: Reservations, k: RunKey, r: Reservation, pod: string, resource: string)
    requires k !in done
    ensures Assumed(done[k := r], pod, resource)
         == Assumed(done, pod, resource) + if r.pod == pod then Amount(r.request, resource) else 0
  {
    var after := done[k := r];
    TotalSame(Requests(after), Requests(done), Holders(done, pod), resource);
    if r.pod == pod {
      assert Holders(after, pod) - {k} == Holders(done, pod);
      TotalSplit(Requests(after), Holders(after, pod), k, resource);
    } else {
      assert Holders(after, pod) == Holders(done, pod);
    }
  }

  // ---- the cache ------------------------------------------------------------

  class AssumedReservationCache {
    var reservations: Reservations

    constructor ()
      ensures reservations == map[]
    {
      reservations := map[];
    }

    /** Drops every assumption that the view no longer needs. */
    method SyncLocked(view: RunView)
      modifies this
      ensures reservations == Synced(old(reservations), view)
      ensures forall k :: k in reservations ==> k in old(reservations) && reservations[k] == old(reservations)[k]
      ensures forall k :: k in old(reservations) ==>
                (k in reservations <==>
                   && k in view && view[k].phase == RunPending && view[k].assignedPod == ""
                   && view[k].name == old(reservations)[k].runName)
    {
      var rest := reservations.Keys;
      while rest != {}
        invariant rest <= old(reservations).Keys
        invariant forall k :: k in reservations <==>
                    k in old(reservations) && (k in rest || StillAssumed(view, k, old(reservations)[k]))
        invariant forall k :: k in reservations ==> reservations[k] == old(reservations)[k]
      {
        var k :| k in rest;
        rest := rest - {k};
        if !StillAssumed(view, k, reservations[k]) {
          reservations := reservations - {k};
        }
      }
    }

    method UsageLocked() returns (usage: UsageByPod)
      ensures forall p, x :: Used(usage, p, x) == Assumed(reservations, p, x)
    {
      usage := map[];
      var rest := reservations.Keys;
      ghost var done: Reservations := map[];
      while rest != {}
        invariant rest <= reservations.Keys && done == reservations - rest
        invariant forall p, x :: Used(usage, p, x) == Assumed(done, p, x)
      {
        var k :| k in rest;
        ghost var before := usage;
        usage := AddUsage(usage, reservations[k].pod, reservations[k].request);
        forall p, x ensures Used(usage, p, x) == Assumed(done[k := reservations[k]], p, x) {
          HolderAdded(done, k, reservations[k], p, x);
          assert Used(before, p, x) == Assumed(done, p, x);
        }
        rest := rest - {k};
        done := done[k := reservations[k]];
      }
      assert done == reservations;
    }

    /** Capacity accounting for one scheduling cycle. */
    method Snapshot(actual: UsageByPod, view: RunView) returns (usage: UsageByPod)
      modifies this
      ensures reservations == Synced(old(reservations), view)
      ensures forall p, x :: Used(usage, p, x) == Used(actual, p, x) + Assumed(reservations, p, x)
    {
      SyncLocked(view);
      var assumed := UsageLocked();
      usage := MergeUsage(actual, assumed);
    }

    /** Assumes the Run onto the Pod if the Pod is available with room for it. */
    method Reserve(
        view: RunView, actual: UsageByPod, k: RunKey, name: string, pod: string, podReady: bool, capacity: ResourceList,
        request: ResourceList)
      returns (reserved: bool)
      modifies this
      ensures reserved <==> podReady && HasRoom(capacity, actual, Synced(old(reservations), view), pod, request)
      ensures reservations == if reserved then Synced(old(reservations), view)[k := Reservation(name, pod, request)]
                              else Synced(old(reservations), view)
    {
      SyncLocked(view);
      var assumed := UsageLocked();
      var usage := MergeUsage(actual, assumed);
      var used: ResourceList := if pod in usage then usage[pod] else map[];
      assert forall x :: Amount(used, x) == Used(usage, pod, x);
      var fits := Fits(capacity, used, request);
      if !podReady || !fits {
        return false;
      }
      reservations := reservations[k := Reservation(name, pod, request)];
      return true;
    }

    method Observe(k: RunKey, s: RunState)
      modifies this
      ensures reservations == Observed(old(reservations), k, s)
    {
      if k in reservations && (s.assignedPod != "" || !s.phase.RunPending?) {
        reservations := reservations - {k};
      }
    }

    method Release(k: RunKey)
      modifies this
      ensures reservations == old(reservations) - {k}
    {
      reservations := reservations - {k};
    }
  }
}
