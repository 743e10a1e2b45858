/** What the caller of a streamed operation receives, against what its journal holds. */
module SessionCaller {
  import opened SessionJournal
  import opened SessionReplay
  import opened SessionProxy

  /** The events whose sending succeeds, in order; each event is sent once, in the attempt of its number. */
  ghost function Delivered(events: seq<SessionEvent>, attempt: int -> Attempt): seq<SessionEvent> {
    if events == [] then []
    else
      var last := events[|events| - 1];
      Delivered(events[..|events| - 1], attempt) + if attempt(last.sequence).sent then [last] else []
  }

  lemma EmitDelivers(o: Owner, kind: EventKind, value: string, attempt: int -> Attempt)
    requires o.sent == Delivered(o.journal.events, attempt)
    ensures var r := Emit(o, kind, value, attempt(o.sequence + 1)).0;
            r.sent == Delivered(r.journal.events, attempt)
  {
    var r := Emit(o, kind, value, attempt(o.sequence + 1)).0;
    if r.journal != o.journal {
      assert r.journal.events[..|r.journal.events| - 1] == o.journal.events;
    }
  }

  lemma {:induction false} ForwardDelivers(o: Owner, stream: seq<Received>, terminal: bool, attempt: int -> Attempt)
    requires o.sent == Delivered(o.journal.events, attempt)
    ensures var r := Forward(o, stream, terminal, attempt).0; r.sent == Delivered(r.journal.events, attempt)
    decreases |stream|
  {
    hide Emit;
    if stream != [] && Forwardable(stream[0]) && !terminal {
      var (next, ending) := Emit(o, stream[0].kind, stream[0].value, attempt(o.sequence + 1));
      EmitDelivers(o, stream[0].kind, stream[0].value, attempt);
      if ending.Done? {
        ForwardDelivers(next, stream[1..], stream[0].kind.Completed?, attempt);
      }
    }
  }

  /**
    * Whatever is stored, lost or sent: the caller receives exactly the stored events whose sending
    * succeeds, in journal order. Nothing reaches it that was not stored first.
    */
  lemma CallerReceives(op: Operation, failure: Ending -> string, attempt: int -> Attempt)
    ensures var r := Streamed(op, failure, attempt); r.sent == Delivered(r.journal.events, attempt)
  {
    var o := Admission(op, attempt).0;
    EmitDelivers(Owner(Journal(op.digest, false, []), 0, []), Accepted, op.id, attempt);
    hide Emit;
    ForwardDelivers(o, op.stream, false, attempt);
    var (r, ending) := Executed(op, attempt);
    EmitDelivers(r, Failed, failure(ending), attempt);
  }

  lemma {:induction false} AllDelivered(events: seq<SessionEvent>, attempt: int -> Attempt)
    requires forall n :: attempt(n).sent
    ensures Delivered(events, attempt) == events
  {
    if events != [] {
      AllDelivered(events[..|events| - 1], attempt);
    }
  }

  /** A caller that stays receives the whole journal. */
  lemma WaitingCallerReceivesAll(op: Operation, failure: Ending -> string, attempt: int -> Attempt)
    requires forall n :: attempt(n).sent
    ensures var r := Streamed(op, failure, attempt); r.sent == r.journal.events
  {
    CallerReceives(op, failure, attempt);
    AllDelivered(Streamed(op, failure, attempt).journal.events, attempt);
  }

  ghost predicate Sent(events: seq<SessionEvent>, attempt: int -> Attempt, i: nat)
    requires i < |events|
  {
    attempt(events[i].sequence).sent
  }

  lemma {:induction false} WholeIff(events: seq<SessionEvent>, attempt: int -> Attempt)
    ensures |Delivered(events, attempt)| <= |events|
    ensures Delivered(events, attempt) == events <==> forall i :: 0 <= i < |events| ==> Sent(events, attempt, i)
  {
    if events != [] {
      var front := events[..|events| - 1];
      WholeIff(front, attempt);
      assert forall i :: 0 <= i < |front| ==> (Sent(front, attempt, i) <==> Sent(events, attempt, i));
      var d, last := Delivered(front, attempt), events[|events| - 1];
      assert Sent(events, attempt, |events| - 1) <==> attempt(last.sequence).sent;
      assert forall i :: 0 <= i < |front| && Sent(events, attempt, i) ==> Sent(front, attempt, i);
      assert events == front + [last];
      assert d + [last] == events <==> d == front by {
        if d + [last] == events {
          assert d == (d + [last])[..|d|] == front;
        }
      }
    }
  }

  /** What is delivered is a prefix exactly when no event is sent after one that was not. */
  lemma {:induction false} PrefixIff(events: seq<SessionEvent>, attempt: int -> Attempt)
    requires forall i, j :: 0 <= i < j < |events| ==> events[i].sequence < events[j].sequence
    ensures Delivered(events, attempt) <= events <==>
              forall i, j :: 0 <= i < j < |events| && Sent(events, attempt, j) ==> Sent(events, attempt, i)
  {
    if events != [] {
      var front, n := events[..|events| - 1], |events| - 1;
      PrefixIff(front, attempt);
      WholeIff(front, attempt);
      assert forall i :: 0 <= i < |front| ==> (Sent(front, attempt, i) <==> Sent(events, attempt, i));
      var d := Delivered(front, attempt);
      if Sent(events, attempt, n) {
        assert (d + [events[n]])[|d|] == events[n];
        assert |d| < |front| ==> events[|d|].sequence < events[n].sequence;
        assert d + [events[n]] <= events ==> (d + [events[n]])[|d|] == events[|d|];
      } else {
        assert d <= events <==> d <= front;
      }
    }
  }

  /**
    * The caller has received a prefix of the journal, so that the number of its last event is a safe
    * cursor, exactly when no stored event was sent after one that could not be.
    */
  lemma CursorIsSafeIff(op: Operation, failure: Ending -> string, attempt: int -> Attempt)
    ensures var r := Streamed(op, failure, attempt);
            r.sent <= r.journal.events <==>
              forall i, j :: 0 <= i < j < |r.journal.events| && Sent(r.journal.events, attempt, j) ==>
                Sent(r.journal.events, attempt, i)
  {
    CallerReceives(op, failure, attempt);
    var k := OwnerJournal(op, failure, attempt);
    PrefixIff(Streamed(op, failure, attempt).journal.events, attempt);
  }

  /** The failure event may be sent after an event that could not be: then it is not. */
  lemma MissedEventThenFailure(op: Operation, failure: Ending -> string, attempt: int -> Attempt)
    requires op == Operation("", "", true, [Arrived(Output, "", true)]) && failure(NotSent) == ""
    requires forall n :: attempt(n).api.readable && attempt(n).api.writable && (attempt(n).sent <==> n != 2)
    requires forall n, j :: attempt(n).api.bytes(j) <= MAX_JOURNAL_BYTES
    ensures var r := Streamed(op, failure, attempt);
            r.sent == [SessionEvent(1, Accepted, ""), SessionEvent(3, Failed, "")] && !(r.sent <= r.journal.events)
  {
    var events := [SessionEvent(1, Accepted, ""), SessionEvent(2, Output, "")];
    var first := Owner(Journal("", false, events[..1]), 1, events[..1]);
    var second := Owner(Journal("", false, events), 2, events[..1]);
    Emits(Owner(Journal("", false, []), 0, []), Accepted, attempt(1));
    Emits(first, Output, attempt(2));
    Emits(second, Failed, attempt(3));
    hide Emit;
    assert [] + [events[0]] == events[..1] && events[..1] + [events[1]] == events;
    assert events[..1] == [SessionEvent(1, Accepted, "")];
    assert Admission(op, attempt) == (first, Done);
    assert Forward(first, op.stream, false, attempt) == (second, NotSent);
  }

  lemma Emits(o: Owner, kind: EventKind, a: Attempt)
    requires !o.journal.terminal && o.sequence == |o.journal.events| < MAX_STORED_EVENTS
    requires a.api.readable && a.api.writable && forall j :: a.api.bytes(j) <= MAX_JOURNAL_BYTES
    ensures var e := SessionEvent(o.sequence + 1, kind, "");
            Emit(o, kind, "", a)
            == (Owner(Journal(o.journal.digest, e.Terminal(), o.journal.events + [e]), e.sequence,
                      if a.sent then o.sent + [e] else o.sent),
                if a.sent then Done else NotSent)
  {
  }

  // ---- what the Runtime Server says is what is stored and sent ---------------

  /** The Runtime Server reports progress and output and then completes; nothing else, and nothing malformed. */
  ghost predicate Completing(stream: seq<Received>) {
    && stream != [] && (forall i :: 0 <= i < |stream| ==> stream[i].Arrived? && stream[i].wellFormed)
    && (forall i :: 0 <= i < |stream| - 1 ==> stream[i].kind == Progress || stream[i].kind == Output)
    && stream[|stream| - 1].kind == Completed
  }

  /** Every write and send succeeds, and every event is small enough. */
  ghost predicate NothingFails(op: Operation, attempt: int -> Attempt) {
    && (forall n :: attempt(n).sent && attempt(n).api.readable && attempt(n).api.writable)
    && (forall n, j :: attempt(n).api.bytes(j) <= MAX_JOURNAL_BYTES)
    && |op.id| <= MAX_STORED_EVENT_BYTES
    && (forall i :: 0 <= i < |op.stream| && op.stream[i].Arrived? ==> |op.stream[i].value| <= MAX_STORED_EVENT_BYTES)
  }

  lemma {:induction false} CompletingIsStored(o: Owner, stream: seq<Received>, attempt: int -> Attempt)
    requires InStep(o, Done) && !o.journal.terminal && Completing(stream)
    requires |o.journal.events| + |stream| <= MAX_STORED_EVENTS
    requires NothingFails(Operation("", "", true, stream), attempt)
    ensures var (r, ending) := Forward(o, stream, false, attempt);
            && ending.Done? && r.journal.terminal && |r.journal.events| == |o.journal.events| + |stream|
            && o.journal.events <= r.journal.events
            && forall i :: 0 <= i < |stream| ==>
                 r.journal.events[|o.journal.events| + i]
                 == SessionEvent(|o.journal.events| + i + 1, stream[i].kind, stream[i].value)
    decreases |stream|
  {
    var (next, ending) := Emit(o, stream[0].kind, stream[0].value, attempt(o.sequence + 1));
    EmitInStep(o, stream[0].kind, stream[0].value, attempt(o.sequence + 1));
    if |stream| > 1 {
      assert Completing(stream[1..]) by {
        assert forall i :: 0 <= i < |stream| - 1 ==> stream[1..][i] == stream[i + 1];
      }
      CompletingIsStored(next, stream[1..], attempt);
      hide Emit, InStep;
      var r := Forward(o, stream, false, attempt).0;
      forall i | 0 <= i < |stream|
        ensures r.journal.events[|o.journal.events| + i]
             == SessionEvent(|o.journal.events| + i + 1, stream[i].kind, stream[i].value)
      {
        if i > 0 {
          assert stream[1..][i - 1] == stream[i];
        }
      }
    }
  }

  /**
    * An operation that goes well ends with the accepted event and everything the Runtime Server said,
    * numbered on, in its journal and with its caller.
    */
  lemma CompletedOperation(op: Operation, failure: Ending -> string, attempt: int -> Attempt)
    requires op.runs && Completing(op.stream) && NothingFails(op, attempt) && |op.stream| < MAX_STORED_EVENTS
    ensures var r := Streamed(op, failure, attempt);
            && r.sent == r.journal.events && r.journal.terminal && |r.journal.events| == |op.stream| + 1
            && r.journal.events[0] == SessionEvent(1, Accepted, op.id)
            && forall i :: 0 <= i < |op.stream| ==>
                 r.journal.events[i + 1] == SessionEvent(i + 2, op.stream[i].kind, op.stream[i].value)
  {
    WaitingCallerReceivesAll(op, failure, attempt);
    AdmittedInStep(op, attempt);
    assert Admission(op, attempt).1.Done?;
    CompletingIsStored(Admission(op, attempt).0, op.stream, attempt);
  }

  lemma AcceptedFirst(op: Operation, failure: Ending -> string, attempt: int -> Attempt)
    ensures var events := Streamed(op, failure, attempt).journal.events;
            events == [] || events[0] == SessionEvent(1, Accepted, op.id)
  {
    AdmittedInStep(op, attempt);
    var (o, first) := Admission(op, attempt);
    hide Admission, JournalOk;
    if first.Done? {
      var k := ForwardIsPrefix(o, op.stream, false, attempt);
      var (r, ending) := Executed(op, attempt);
      assert o.journal.events <= r.journal.events;
      FailureAppended(r, ending, failure(ending), attempt(r.sequence + 1));
    }
  }

  /**
    * Only the owner accepts and fails an operation: whatever the Runtime Server emits, the first event is
    * the acceptance, a failure is the last event and the owner's own, and the rest is progress, output or
    * the completion as the Runtime Server gave them.
    */
  lemma OnlyTheOwnerDecides(op: Operation, failure: Ending -> string, attempt: int -> Attempt, i: nat)
    requires i < |Streamed(op, failure, attempt).journal.events|
    ensures var events := Streamed(op, failure, attempt).journal.events;
            match events[i].kind
            case Accepted => i == 0 && events[i].value == op.id
            case Failed => i == |events| - 1 > 0 && events[i].value == failure(Executed(op, attempt).1)
            case _ => 0 < i <= |op.stream| && op.stream[i - 1] == Arrived(events[i].kind, events[i].value, true)
  {
    var k := OwnerJournal(op, failure, attempt);
    AcceptedFirst(op, failure, attempt);
    var events := Streamed(op, failure, attempt).journal.events;
    hide Streamed, Executed;
    if 0 < i <= k {
      assert Forwardable(op.stream[i - 1]) && events[i] == Body(op, k)[i];
    }
    if events[i].kind.Failed? {
      assert !Holds(events, op, k);
      assert JournalOk(Streamed(op, failure, attempt).journal);
    }
  }
}
