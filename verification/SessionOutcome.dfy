/** Which operations the owner leaves without a terminal event, told from their inputs alone. */
module SessionOutcome {
  import opened SessionJournal
  import opened SessionProxy

  // ---- the inputs of a run --------------------------------------------------

  /** Emitted by the Runtime Server, passed on, and not the end. */
  predicate Plain(r: Received) {
    Forwardable(r) && !r.kind.Completed?
  }

  /** How many plain events the stream starts with. */
  function PlainPrefix(stream: seq<Received>): (n: nat)
    ensures n <= |stream| && (forall i :: 0 <= i < n ==> Plain(stream[i])) && (n < |stream| ==> !Plain(stream[n]))
  {
    if stream == [] || !Plain(stream[0]) then 0 else 1 + PlainPrefix(stream[1..])
  }

  /** The event that gets number n if everything before it went well. */
  ghost function EventAt(op: Operation, n: int): SessionEvent {
    if n == 1 then SessionEvent(1, Accepted, op.id)
    else if 2 <= n <= |op.stream| + 1 && op.stream[n - 2].Arrived? then
      SessionEvent(n, op.stream[n - 2].kind, op.stream[n - 2].value)
    else SessionEvent(n, Failed, "")
  }

  ghost function EventsUpTo(op: Operation, n: nat): seq<SessionEvent> {
    seq(n, i => EventAt(op, i + 1))
  }

  /** The store takes the event after these: there is room, it is small enough, and the API server works. */
  ghost predicate Storable(digest: string, events: seq<SessionEvent>, e: SessionEvent, api: Api) {
    && |events| < MAX_STORED_EVENTS && |e.value| <= MAX_STORED_EVENT_BYTES && api.readable && api.writable
    && api.bytes(Journal(digest, e.Terminal(), events + [e])) <= MAX_JOURNAL_BYTES
  }

  ghost predicate Persists(op: Operation, attempt: int -> Attempt, n: nat)
    requires n > 0
  {
    Storable(op.digest, EventsUpTo(op, n - 1), EventAt(op, n), attempt(n).api)
  }

  /** Event number n is persisted and reaches the caller. */
  ghost predicate Goes(op: Operation, attempt: int -> Attempt, n: nat)
    requires n > 0
  {
    Persists(op, attempt, n) && attempt(n).sent
  }

  ghost predicate FailureStored(
      op: Operation, failure: Ending -> string, attempt: int -> Attempt, ending: Ending, n: nat) {
    Storable(op.digest, EventsUpTo(op, n), SessionEvent(n + 1, Failed, failure(ending)), attempt(n + 1).api)
  }

  /** The accepted event and the first k plain events all go. */
  ghost predicate Smooth(op: Operation, attempt: int -> Attempt, k: nat) {
    k <= PlainPrefix(op.stream) && forall n: nat :: 1 <= n <= k + 1 ==> Goes(op, attempt, n)
  }

  /** After k smooth events the run stops, and what it stops on leaves the journal open. */
  ghost predicate OpenAt(op: Operation, failure: Ending -> string, attempt: int -> Attempt, k: nat) {
    if k < |op.stream| && Plain(op.stream[k]) then
      !Goes(op, attempt, k + 2)
          && (Persists(op, attempt, k + 2) ==> !FailureStored(op, failure, attempt, NotSent, k + 2))
    else if k < |op.stream| && Forwardable(op.stream[k]) then !Persists(op, attempt, k + 2)
    else !FailureStored(op, failure, attempt, Refused, k + 1)
  }

  /** The operation is left open, as its stream and the answers of the API server decide it. */
  ghost predicate LeavesOpen(op: Operation, failure: Ending -> string, attempt: int -> Attempt) {
    || !Goes(op, attempt, 1)
    || (!op.runs && !FailureStored(op, failure, attempt, Refused, 1))
    || (op.runs && exists k: nat :: Smooth(op, attempt, k) && OpenAt(op, failure, attempt, k))
  }

  // ---- one event ------------------------------------------------------------

  lemma EmitStores(o: Owner, kind: EventKind, value: string, a: Attempt)
    requires !o.journal.terminal && o.sequence == |o.journal.events|
    ensures var e := SessionEvent(o.sequence + 1, kind, value);
            var next := Journal(o.journal.digest, e.Terminal(), o.journal.events + [e]);
            var (r, ending) := Emit(o, kind, value, a);
            if Storable(o.journal.digest, o.journal.events, e, a.api) then
              r.journal == next && r.sequence == o.sequence + 1 && ending == if a.sent then Done else NotSent
            else r == o.(sequence := o.sequence + 1) && ending == NotPersisted
  {
  }

  /** A number was used up, or the journal has ended: nothing more is stored. */
  lemma EmitRefused(o: Owner, kind: EventKind, value: string, a: Attempt)
    requires o.journal.terminal || o.sequence != |o.journal.events|
    ensures Emit(o, kind, value, a).0.journal == o.journal
  {
  }

  ghost function Finished(r: (Owner, Ending), failure: Ending -> string, attempt: int -> Attempt): Journal {
    if r.1.Done? then r.0.journal else Emit(r.0, Failed, failure(r.1), attempt(r.0.sequence + 1)).0.journal
  }

  /** The owner after the accepted event and k plain ones. */
  ghost predicate Reached(op: Operation, k: nat, o: Owner) {
    o.journal == Journal(op.digest, false, EventsUpTo(op, k + 1)) && o.sequence == k + 1
  }

  lemma OneMore(op: Operation, n: nat)
    ensures EventsUpTo(op, n) + [EventAt(op, n + 1)] == EventsUpTo(op, n + 1) && |EventsUpTo(op, n)| == n
  {
  }

  lemma Halted(op: Operation, failure: Ending -> string, attempt: int -> Attempt, k: nat, o: Owner, ending: Ending)
    requires Reached(op, k, o) && !ending.Done?
    ensures Finished((o, ending), failure, attempt).terminal <==> FailureStored(op, failure, attempt, ending, k + 1)
  {
    EmitStores(o, Failed, failure(ending), attempt(o.sequence + 1));
  }

  // ---- where the run stops --------------------------------------------------

  /** There is no plain event that goes after the first k. */
  ghost predicate Stuck(op: Operation, attempt: int -> Attempt, k: nat) {
    !(k < |op.stream| && Plain(op.stream[k]) && Goes(op, attempt, k + 2))
  }

  lemma OpenIsStuck(op: Operation, failure: Ending -> string, attempt: int -> Attempt, k: nat)
    requires OpenAt(op, failure, attempt, k)
    ensures Stuck(op, attempt, k)
  {
  }

  lemma StopsOnEvent(op: Operation, failure: Ending -> string, attempt: int -> Attempt, k: nat, o: Owner)
    requires Reached(op, k, o) && k < |op.stream| && Plain(op.stream[k]) && !Goes(op, attempt, k + 2)
    ensures Finished(Forward(o, op.stream[k..], false, attempt), failure, attempt).terminal <==>
              !OpenAt(op, failure, attempt, k)
  {
    hide Emit, Storable;
    var e := op.stream[k];
    EmitStores(o, e.kind, e.value, attempt(k + 2));
    OneMore(op, k + 1);
    var (next, ending) := Emit(o, e.kind, e.value, attempt(k + 2));
    assert Forward(o, op.stream[k..], false, attempt) == (next, ending);
    if Persists(op, attempt, k + 2) {
      Halted(op, failure, attempt, k + 1, next, ending);
    } else {
      EmitRefused(next, Failed, failure(ending), attempt(next.sequence + 1));
    }
  }

  lemma StopsOnEnd(op: Operation, failure: Ending -> string, attempt: int -> Attempt, k: nat, o: Owner)
    requires Reached(op, k, o) && k < |op.stream| && Forwardable(op.stream[k]) && op.stream[k].kind.Completed?
    ensures Finished(Forward(o, op.stream[k..], false, attempt), failure, attempt).terminal <==>
              Persists(op, attempt, k + 2)
  {
    hide Emit, Storable;
    var e := op.stream[k];
    EmitStores(o, e.kind, e.value, attempt(k + 2));
    OneMore(op, k + 1);
    var (next, ending) := Emit(o, e.kind, e.value, attempt(k + 2));
    var (r, last) := Forward(o, op.stream[k..], false, attempt);
    assert (r, last) == if ending.Done? then Forward(next, op.stream[k..][1..], true, attempt) else (next, ending);
    assert r.journal == next.journal;
    EmitRefused(r, Failed, failure(last), attempt(r.sequence + 1));
  }

  lemma StopsOnRefusal(op: Operation, failure: Ending -> string, attempt: int -> Attempt, k: nat, o: Owner)
    requires Reached(op, k, o) && k <= |op.stream| && (k < |op.stream| ==> !Forwardable(op.stream[k]))
    ensures Finished(Forward(o, op.stream[k..], false, attempt), failure, attempt).terminal
       <==> FailureStored(op, failure, attempt, Refused, k + 1)
  {
    Halted(op, failure, attempt, k, o, Refused);
  }

  lemma EmitKeeps(o: Owner, kind: EventKind, value: string, a: Attempt)
    ensures o.journal.events <= Emit(o, kind, value, a).0.journal.events
  {
  }

  lemma {:induction false} ForwardKeeps(
      o: Owner, stream: seq<Received>, terminal: bool, failure: Ending -> string, attempt: int -> Attempt)
    ensures o.journal.events <= Finished(Forward(o, stream, terminal, attempt), failure, attempt).events
    decreases |stream|
  {
    hide Emit;
    var (r, ending) := Forward(o, stream, terminal, attempt);
    if stream == [] || !Forwardable(stream[0]) || terminal {
      EmitKeeps(r, Failed, failure(ending), attempt(r.sequence + 1));
    } else {
      EmitKeeps(o, stream[0].kind, stream[0].value, attempt(o.sequence + 1));
      var (next, first) := Emit(o, stream[0].kind, stream[0].value, attempt(o.sequence + 1));
      if first.Done? {
        ForwardKeeps(next, stream[1..], stream[0].kind.Completed?, failure, attempt);
      } else {
        EmitKeeps(r, Failed, failure(ending), attempt(r.sequence + 1));
      }
    }
  }

  lemma {:induction false} StopsSomewhere(
      op: Operation, failure: Ending -> string, attempt: int -> Attempt, k: nat, o: Owner)
    returns (stop: nat)
    requires Reached(op, k, o) && Smooth(op, attempt, k)
    ensures Smooth(op, attempt, stop) && Stuck(op, attempt, stop)
    ensures EventsUpTo(op, stop + 1) <= Finished(Forward(o, op.stream[k..], false, attempt), failure, attempt).events
    ensures Finished(Forward(o, op.stream[k..], false, attempt), failure, attempt).terminal <==>
              !OpenAt(op, failure, attempt, stop)
    decreases |op.stream| - k
  {
    stop := k;
    ForwardKeeps(o, op.stream[k..], false, failure, attempt);
    hide Emit, Storable, Finished;
    if k == |op.stream| || !Forwardable(op.stream[k]) {
      StopsOnRefusal(op, failure, attempt, k, o);
    } else if op.stream[k].kind.Completed? {
      StopsOnEnd(op, failure, attempt, k, o);
    } else if !Goes(op, attempt, k + 2) {
      StopsOnEvent(op, failure, attempt, k, o);
    } else {
      var e := op.stream[k];
      EmitStores(o, e.kind, e.value, attempt(k + 2));
      OneMore(op, k + 1);
      var (next, ending) := Emit(o, e.kind, e.value, attempt(k + 2));
      assert op.stream[k..][1..] == op.stream[k + 1..];
      stop := StopsSomewhere(op, failure, attempt, k + 1, next);
    }
  }

  lemma StopsOnce(op: Operation, attempt: int -> Attempt, a: nat, b: nat)
    ensures Smooth(op, attempt, b) && a < b ==> !Stuck(op, attempt, a)
  {
    if Smooth(op, attempt, b) && a < b {
      assert Goes(op, attempt, a + 2);
    }
  }

  // ---- the theorems ---------------------------------------------------------

  /** An operation ends without a terminal event exactly when its stream and the API server's answers leave it open. */
  lemma LeftOpenIff(op: Operation, failure: Ending -> string, attempt: int -> Attempt)
    ensures !Streamed(op, failure, attempt).journal.terminal <==> LeavesOpen(op, failure, attempt)
  {
    var empty := Owner(Journal(op.digest, false, []), 0, []);
    EmitStores(empty, Accepted, op.id, attempt(1));
    OneMore(op, 0);
    assert EventsUpTo(op, 0) == [];
    hide Emit, Storable;
    var (o, first) := Admission(op, attempt);
    if first.Done? {
      assert Reached(op, 0, o) && Goes(op, attempt, 1);
      RunOpenIff(op, failure, attempt, o);
    }
  }

  lemma Admitted(op: Operation, attempt: int -> Attempt) returns (o: Owner)
    requires Goes(op, attempt, 1)
    ensures Admission(op, attempt) == (o, Done) && Reached(op, 0, o)
  {
    EmitStores(Owner(Journal(op.digest, false, []), 0, []), Accepted, op.id, attempt(1));
    OneMore(op, 0);
    assert EventsUpTo(op, 0) == [];
    o := Admission(op, attempt).0;
  }

  lemma RunOpenIff(op: Operation, failure: Ending -> string, attempt: int -> Attempt, o: Owner)
    requires Admission(op, attempt) == (o, Done) && Reached(op, 0, o) && Goes(op, attempt, 1)
    ensures !Streamed(op, failure, attempt).journal.terminal <==> LeavesOpen(op, failure, attempt)
  {
    assert Streamed(op, failure, attempt).journal == Finished(Executed(op, attempt), failure, attempt);
    hide Emit, Storable, Streamed, Finished, OpenAt;
    if op.runs {
      assert op.stream[0..] == op.stream;
      var stop := StopsSomewhere(op, failure, attempt, 0, o);
      forall k: nat | Smooth(op, attempt, k) && OpenAt(op, failure, attempt, k)
        ensures OpenAt(op, failure, attempt, stop)
      {
        OpenIsStuck(op, failure, attempt, k);
        StopsOnce(op, attempt, k, stop);
        StopsOnce(op, attempt, stop, k);
      }
    } else {
      Halted(op, failure, attempt, 0, o, Refused);
    }
  }

  /** The API server answers, the caller listens, and no message or journal is too long. */
  ghost predicate Healthy(op: Operation, failure: Ending -> string, attempt: int -> Attempt) {
    && (forall n :: attempt(n).sent && attempt(n).api.readable && attempt(n).api.writable)
    && (forall n, j :: attempt(n).api.bytes(j) <= MAX_JOURNAL_BYTES)
    && (forall ending :: |failure(ending)| <= MAX_STORED_EVENT_BYTES) && |op.id| <= MAX_STORED_EVENT_BYTES
    && (forall i :: 0 <= i < |op.stream| && op.stream[i].Arrived? ==> |op.stream[i].value| <= MAX_STORED_EVENT_BYTES)
  }

  lemma HealthyPersists(op: Operation, failure: Ending -> string, attempt: int -> Attempt, n: nat)
    requires Healthy(op, failure, attempt) && n > 0
    ensures Persists(op, attempt, n) <==> n <= MAX_STORED_EVENTS
    ensures Goes(op, attempt, n) <==> n <= MAX_STORED_EVENTS
    ensures forall ending :: FailureStored(op, failure, attempt, ending, n) <==> n < MAX_STORED_EVENTS
  {
  }

  /**
    * When nothing else goes wrong, an operation is left open exactly when its stream starts with 127
    * events that do not end it: with the accepted event they fill the journal.
    */
  lemma HealthyLeftOpenIff(op: Operation, failure: Ending -> string, attempt: int -> Attempt)
    requires Healthy(op, failure, attempt)
    ensures !Streamed(op, failure, attempt).journal.terminal <==>
              op.runs && PlainPrefix(op.stream) >= MAX_STORED_EVENTS - 1
  {
    LeftOpenIff(op, failure, attempt);
    forall n: nat | n > 0
      ensures Persists(op, attempt, n) <==> n <= MAX_STORED_EVENTS
      ensures Goes(op, attempt, n) <==> n <= MAX_STORED_EVENTS
      ensures forall ending :: FailureStored(op, failure, attempt, ending, n) <==> n < MAX_STORED_EVENTS
    {
      HealthyPersists(op, failure, attempt, n);
    }
    hide Persists, Goes, FailureStored, Streamed, Healthy;
    if op.runs && PlainPrefix(op.stream) >= MAX_STORED_EVENTS - 1 {
      assert Smooth(op, attempt, MAX_STORED_EVENTS - 1) && OpenAt(op, failure, attempt, MAX_STORED_EVENTS - 1);
    }
  }

  lemma FullWhenOpen(op: Operation, failure: Ending -> string, attempt: int -> Attempt)
    requires Healthy(op, failure, attempt) && op.runs && PlainPrefix(op.stream) >= MAX_STORED_EVENTS - 1
    ensures |Streamed(op, failure, attempt).journal.events| == MAX_STORED_EVENTS
  {
    HealthyPersists(op, failure, attempt, 1);
    var o := Admitted(op, attempt);
    assert Streamed(op, failure, attempt).journal == Finished(Executed(op, attempt), failure, attempt);
    assert op.stream[0..] == op.stream;
    var stop := StopsSomewhere(op, failure, attempt, 0, o);
    HealthyPersists(op, failure, attempt, stop + 1);
    HealthyPersists(op, failure, attempt, stop + 2);
    var _ := OwnerJournal(op, failure, attempt);
  }

  /** A full open journal is reached, and no later failure event can close it. */
  lemma LongStreamNeverEnds(
      digest: string, id: string, stream: seq<Received>, failure: Ending -> string, attempt: int -> Attempt)
    requires Healthy(Operation(digest, id, true, stream), failure, attempt)
    requires PlainPrefix(stream) >= MAX_STORED_EVENTS - 1
    ensures var j := Streamed(Operation(digest, id, true, stream), failure, attempt).journal;
            !j.terminal && |j.events| == MAX_STORED_EVENTS && forall e, api :: Stored(j, e, api).Err?
  {
    var op := Operation(digest, id, true, stream);
    HealthyLeftOpenIff(op, failure, attempt);
    FullWhenOpen(op, failure, attempt);
  }

  /** Such an operation: 127 pieces of output and nothing wrong anywhere. */
  lemma FullJournalReached(digest: string, id: string)
    requires |id| <= MAX_STORED_EVENT_BYTES
    ensures var stream := seq(MAX_STORED_EVENTS - 1, _ => Arrived(Output, "", true));
            var attempt := (_: int) => Attempt(Api(true, true, _ => 0), true);
            var j := Streamed(Operation(digest, id, true, stream), (_: Ending) => "", attempt).journal;
            !j.terminal && |j.events| == MAX_STORED_EVENTS && forall e, api :: Stored(j, e, api).Err?
  {
    var stream := seq(MAX_STORED_EVENTS - 1, _ => Arrived(Output, "", true));
    var attempt := (_: int) => Attempt(Api(true, true, _ => 0), true);
    LongStreamNeverEnds(digest, id, stream, (_: Ending) => "", attempt);
  }
}
