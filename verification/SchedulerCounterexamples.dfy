/** Two runs that do over-commit a Pod: what each half of the scheduling discipline rules out. */
module SchedulerCounterexamples {
  import opened Common
  import opened ResourceUsage
  import opened WorkflowStatus
  import opened AssumedReservations
  import opened SchedulerMachine

  /** A behaviour of the scheduler alone, disciplined or not. */
  ghost predicate Execution(c: Cluster, ss: seq<State>, es: seq<Event>) {
    && |ss| == |es| + 1 && ss[0] == State(map[], map[], map[], None)
    && forall i :: 0 <= i < |es| ==> Enabled(c, ss[i], es[i]) && ss[i + 1] == Step(c, ss[i], es[i])
  }

  /** Two Runs of one namespace, each as big as either of two Pods there. */
  datatype Scene = Scene(a: RunKey, b: RunKey, pod: string, spare: string, x: string, other: string) {
    ghost predicate Valid() {
      a != b && a.ns == b.ns && other != a.ns && pod != "" && spare != "" && pod != spare
    }
    ghost function Cluster(): Cluster {
      SchedulerMachine.Cluster.Cluster(
        map[a := map[x := 1], b := map[x := 1]],
        map[PodKey(a.ns, pod) := map[x := 1], PodKey(a.ns, spare) := map[x := 1]])
    }
    ghost function Pending(): Version { Present(RunState("", RunPending, "")) }
    ghost function Bound(): Version { Present(RunState("", RunScheduled, pod)) }
    ghost function Scheduling(key: RunKey): seq<Event> {
      [Created(key, ""), Delivered(key, 0), ReserveTried(key, pod), BindSucceeded]
    }
    ghost function Hold(on: string): Reservation { Reservation("", on, map[x := 1]) }

    /** Run a is bound to the Pod; the informer still shows it pending. */
    ghost function BoundUnseen(reservations: Reservations): State {
      State(map[a := [Pending(), Bound()]], map[a := 0], reservations, None)
    }
  }

  lemma HasRoomFor(z: Scene, s: State, key: RunKey, pod: string)
    requires z.Valid() && key in {z.a, z.b} && pod in {z.pod, z.spare}
    requires Occupants(ViewOf(s, key.ns), pod) == {} && Holders(Synced(s.reservations, ViewOf(s, key.ns)), pod) == {}
    ensures Room(z.Cluster(), ViewOf(s, key.ns), Synced(s.reservations, ViewOf(s, key.ns)), PodKey(key.ns, pod),
              z.Cluster().requests[key])
  {
  }

  /** The first Run is created, delivered, reserved and bound. */
  lemma FirstBind(z: Scene) returns (ss: seq<State>, es: seq<Event>)
    requires z.Valid()
    ensures es == z.Scheduling(z.a) && Execution(z.Cluster(), ss, es)
    ensures ss[|es|] == z.BoundUnseen(map[z.a := z.Hold(z.pod)])
  {
    var c := z.Cluster();
    var s1 := State(map[z.a := [z.Pending()]], map[], map[], None);
    var s2 := s1.(seen := map[z.a := 0]);
    var s3 := s2.(reservations := map[z.a := z.Hold(z.pod)], inflight := Some(Flight(z.a, z.pod, 0)));
    var s4 := z.BoundUnseen(map[z.a := z.Hold(z.pod)]);
    ss, es := [State(map[], map[], map[], None)], [];
    Extend(c, ss, es, Created(z.a, ""), s1);
    ss, es := ss + [s1], es + [Created(z.a, "")];
    Extend(c, ss, es, Delivered(z.a, 0), s2);
    ss, es := ss + [s2], es + [Delivered(z.a, 0)];
    HasRoomFor(z, s2, z.a, z.pod);
    assert Synced(s2.reservations, ViewOf(s2, z.a.ns)) == map[];
    Extend(c, ss, es, ReserveTried(z.a, z.pod), s3);
    ss, es := ss + [s3], es + [ReserveTried(z.a, z.pod)];
    assert [z.Pending()] + [z.Bound()] == [z.Pending(), z.Bound()];
    Extend(c, ss, es, BindSucceeded, s4);
    ss, es := ss + [s4], es + [BindSucceeded];
  }

  lemma Extend(c: Cluster, ss: seq<State>, es: seq<Event>, e: Event, t: State)
    requires Execution(c, ss, es) && Enabled(c, ss[|es|], e) && t == Step(c, ss[|es|], e)
    ensures Execution(c, ss + [t], es + [e]) && (ss + [t])[|es| + 1] == t
  {
  }

  /** Once the first Run's reservation is gone, the second is planned onto the same Pod. */
  lemma SecondReserve(z: Scene, ss: seq<State>, es: seq<Event>) returns (ss': seq<State>, es': seq<Event>)
    requires z.Valid() && Execution(z.Cluster(), ss, es) && ss[|es|] == z.BoundUnseen(map[])
    ensures es' == es + z.Scheduling(z.b)[..3] && Execution(z.Cluster(), ss', es')
    ensures ss'[|es'|] == State(z.BoundUnseen(map[]).log[z.b := [z.Pending()]], map[z.a := 0, z.b := 0],
                                map[z.b := z.Hold(z.pod)], Some(Flight(z.b, z.pod, 0)))
  {
    var c := z.Cluster();
    var s1 := z.BoundUnseen(map[]).(log := z.BoundUnseen(map[]).log[z.b := [z.Pending()]]);
    Extend(c, ss, es, Created(z.b, ""), s1);
    ss', es' := ss + [s1], es + [Created(z.b, "")];
    var s2 := s1.(seen := map[z.a := 0, z.b := 0]);
    assert Step(c, s1, Delivered(z.b, 0)) == s2;
    Extend(c, ss', es', Delivered(z.b, 0), s2);
    ss', es' := ss' + [s2], es' + [Delivered(z.b, 0)];
    var s3 := s2.(reservations := map[z.b := z.Hold(z.pod)], inflight := Some(Flight(z.b, z.pod, 0)));
    HasRoomFor(z, s2, z.b, z.pod);
    assert Synced(s2.reservations, ViewOf(s2, z.b.ns)) == map[];
    Extend(c, ss', es', ReserveTried(z.b, z.pod), s3);
    ss', es' := ss' + [s3], es' + [ReserveTried(z.b, z.pod)];
  }

  lemma SecondBind(z: Scene, ss: seq<State>, es: seq<Event>) returns (ss': seq<State>, es': seq<Event>)
    requires z.Valid() && Execution(z.Cluster(), ss, es) && ss[|es|] == z.BoundUnseen(map[])
    ensures es' == es + z.Scheduling(z.b) && Execution(z.Cluster(), ss', es')
    ensures Tenants(ss'[|es'|], PodKey(z.a.ns, z.pod)) == {z.a, z.b}
  {
    ss', es' := SecondReserve(z, ss, es);
    var s4 := Step(z.Cluster(), ss'[|es'|], BindSucceeded);
    Extend(z.Cluster(), ss', es', BindSucceeded, s4);
    ss', es' := ss' + [s4], es' + [BindSucceeded];
    assert Occupies(s4, z.a, z.pod) && Occupies(s4, z.b, z.pod);
  }

  lemma BothCount(z: Scene)
    requires z.Valid()
    ensures Total(z.Cluster().requests, {z.a, z.b}, z.x) > Amount(CapacityOf(z.Cluster(), PodKey(z.a.ns, z.pod)), z.x)
  {
    var requests := z.Cluster().requests;
    TotalSplit(requests, {z.a, z.b}, z.a, z.x);
    assert {z.a, z.b} - {z.a} == {z.b};
    TotalSplit(requests, {z.b}, z.b, z.x);
  }

  /** A snapshot for another namespace forgets the first Run's reservation; the Pod is over-committed. */
  lemma ForeignSnapshotOvercommits(z: Scene) returns (ss: seq<State>, es: seq<Event>)
    requires z.Valid()
    ensures es == z.Scheduling(z.a) + [SnapshotTaken(z.other)] + z.Scheduling(z.b) && Execution(z.Cluster(), ss, es)
    ensures Total(z.Cluster().requests, Tenants(ss[|es|], PodKey(z.a.ns, z.pod)), z.x)
          > Amount(CapacityOf(z.Cluster(), PodKey(z.a.ns, z.pod)), z.x)
  {
    ss, es := FirstBind(z);
    var s4 := ss[|es|];
    assert Synced(s4.reservations, ViewOf(s4, z.other)) == map[];
    assert Step(z.Cluster(), s4, SnapshotTaken(z.other)) == z.BoundUnseen(map[]);
    Extend(z.Cluster(), ss, es, SnapshotTaken(z.other), z.BoundUnseen(map[]));
    ss, es := ss + [z.BoundUnseen(map[])], es + [SnapshotTaken(z.other)];
    ss, es := SecondBind(z, ss, es);
    BothCount(z);
  }

  /** Planning a bound but unseen Run again, and losing the write, does the same. */
  lemma ReplanningOvercommits(z: Scene) returns (ss: seq<State>, es: seq<Event>)
    requires z.Valid()
    ensures es == z.Scheduling(z.a) + [ReserveTried(z.a, z.spare)] + [BindFailed] + z.Scheduling(z.b)
    ensures Execution(z.Cluster(), ss, es)
    ensures Total(z.Cluster().requests, Tenants(ss[|es|], PodKey(z.a.ns, z.pod)), z.x)
          > Amount(CapacityOf(z.Cluster(), PodKey(z.a.ns, z.pod)), z.x)
  {
    var c := z.Cluster();
    ss, es := FirstBind(z);
    var s4 := ss[|es|];
    var s5 := z.BoundUnseen(map[z.a := z.Hold(z.spare)]).(inflight := Some(Flight(z.a, z.spare, 0)));
    assert Synced(s4.reservations, ViewOf(s4, z.a.ns)) == s4.reservations;
    assert Step(c, s4, ReserveTried(z.a, z.spare)) == s5 by {
      HasRoomFor(z, s4, z.a, z.spare);
    }
    assert Step(c, s5, BindFailed) == z.BoundUnseen(map[]);
    Extend(c, ss, es, ReserveTried(z.a, z.spare), s5);
    ss, es := ss + [s5], es + [ReserveTried(z.a, z.spare)];
    Extend(c, ss, es, BindFailed, z.BoundUnseen(map[]));
    ss, es := ss + [z.BoundUnseen(map[])], es + [BindFailed];
    ss, es := SecondBind(z, ss, es);
    BothCount(z);
  }
}
