/** The owner's streaming of one operation into its journal, and forwarding by another Pod. */
module SessionProxy {
  import opened SessionJournal
  import opened SessionReplay

  /** What the Runtime Server's stream yields; the end of the sequence is the end of the stream. */
  datatype Received = Arrived(kind: EventKind, value: string, wellFormed: bool) | Broken

  /** How persisting one event and sending it on to the caller go. */
  datatype Attempt = Attempt(api: Api, sent: bool)

  datatype Ending = Done | Refused | NotPersisted | NotSent

  /** A created operation; runs says whether the queue gets to execute it before it is given up. */
  datatype Operation = Operation(digest: string, id: string, runs: bool, stream: seq<Received>)

  datatype Owner = Owner(journal: Journal, sequence: int, sent: seq<SessionEvent>)

  // ---- specification --------------------------------------------------------

  /** Stores the event under the given journal, as the store's Append does for a known key. */
  function Stored(j: Journal, e: SessionEvent, api: Api): Result<Journal> {
    AppendOutcome(map["" := j], "", e, api)
  }

  /** Takes the next sequence number, persists the event and sends it. */
  function Emit(o: Owner, kind: EventKind, value: string, a: Attempt): (Owner, Ending) {
    var e := SessionEvent(o.sequence + 1, kind, value);
    var stored := Stored(o.journal, e, a.api);
    if stored.Err? then (o.(sequence := e.sequence), NotPersisted)
    else if !a.sent then (Owner(stored.value, e.sequence, o.sent), NotSent)
    else (Owner(stored.value, e.sequence, o.sent + [e]), Done)
  }

  /** Whether the Runtime Server may emit this. */
  predicate Forwardable(r: Received) {
    r.Arrived? && r.wellFormed && !r.kind.Accepted? && !r.kind.Failed?
  }

  ghost function Forward(o: Owner, stream: seq<Received>, terminal: bool, attempt: int -> Attempt): (Owner, Ending)
    decreases |stream|
  {
    if stream == [] then (o, if terminal then Done else Refused)
    else if !Forwardable(stream[0]) || terminal then (o, Refused)
    else
      var (next, ending) := Emit(o, stream[0].kind, stream[0].value, attempt(o.sequence + 1));
      if !ending.Done? then (next, ending)
      else Forward(next, stream[1..], stream[0].kind.Completed?, attempt)
  }

  // ---- the owner's loop -----------------------------------------------------

  method ForwardSessionOperationEvents(
      o: Owner, stream: seq<Received>, attempt: int -> Attempt)
      returns (r: Owner, ending: Ending)
    ensures (r, ending) == Forward(o, stream, false, attempt)
  {
    var terminal := false;
    r := o;
    for i := 0 to |stream|
      invariant Forward(r, stream[i..], terminal, attempt) == Forward(o, stream, false, attempt)
    {
      if !Forwardable(stream[i]) {
        return r, Refused;
      }
      if terminal {
        return r, Refused;
      }
      var (next, sent) := Emit(r, stream[i].kind, stream[i].value, attempt(r.sequence + 1));
      if !sent.Done? {
        return next, sent;
      }
      assert stream[i..][1..] == stream[i + 1..];
      r := next;
      terminal := stream[i].kind.Completed?;
    }
    ending := if terminal then Done else Refused;
  }

  function Admission(op: Operation, attempt: int -> Attempt): (Owner, Ending) {
    Emit(Owner(Journal(op.digest, false, []), 0, []), Accepted, op.id, attempt(1))
  }

  /** Admission and execution, before a failure is recorded. */
  ghost function Executed(op: Operation, attempt: int -> Attempt): (Owner, Ending) {
    var (o, first) := Admission(op, attempt);
    if !first.Done? then (o, first)
    else if op.runs then Forward(o, op.stream, false, attempt)
    else (o, Refused)
  }

  /** The whole run: a failure after admission becomes one more event. */
  ghost function Streamed(op: Operation, failure: Ending -> string, attempt: int -> Attempt): Owner {
    var (o, ending) := Executed(op, attempt);
    if ending.Done? || !Admission(op, attempt).1.Done? then o
    else Emit(o, Failed, failure(ending), attempt(o.sequence + 1)).0
  }

  method StreamSessionOperation(op: Operation, failure: Ending -> string, attempt: int -> Attempt) returns (r: Owner)
    ensures r == Streamed(op, failure, attempt)
  {
    var (o, ending) := Admission(op, attempt);
    r := o;
    if !ending.Done? {
      return;
    }
    if op.runs {
      r, ending := ForwardSessionOperationEvents(r, op.stream, attempt);
    } else {
      ending := Refused;
    }
    if !ending.Done? {
      var (last, _) := Emit(r, Failed, failure(ending), attempt(r.sequence + 1));
      r := last;
    }
  }

  // ---- what the journal then holds ------------------------------------------

  /** The Runtime Server's events as the journal holds them, numbered from first on. */
  ghost function Renumbered(stream: seq<Received>, first: int): seq<SessionEvent>
    requires forall i :: 0 <= i < |stream| ==> Forwardable(stream[i])
  {
    seq(|stream|, i requires 0 <= i < |stream| && Forwardable(stream[i]) =>
        SessionEvent(first + i, stream[i].kind, stream[i].value))
  }

  /** The owner's numbering agrees with the journal, or the last event was lost and it is one ahead. */
  ghost predicate InStep(o: Owner, ending: Ending) {
    && JournalOk(o.journal)
    && o.sequence == |o.journal.events| + if ending.NotPersisted? then 1 else 0
  }

  lemma EmitInStep(o: Owner, kind: EventKind, value: string, a: Attempt)
    requires InStep(o, Done)
    ensures var (r, ending) := Emit(o, kind, value, a);
            && InStep(r, ending) && !ending.Refused?
            && (ending.NotPersisted? ==> r.journal == o.journal)
            && (!ending.NotPersisted? ==>
                  && r.journal.events == o.journal.events + [SessionEvent(o.sequence + 1, kind, value)]
                  && r.journal.terminal == (kind.Completed? || kind.Failed?)
                  && !o.journal.terminal && |o.journal.events| < MAX_STORED_EVENTS)
  {
  }

  /** The journal gains exactly a renumbered prefix of the stream; success and refusal say where it ends. */
  ghost predicate Forwards(o: Owner, stream: seq<Received>, r: Owner, ending: Ending, k: nat) {
    && k <= |stream| && (forall i :: 0 <= i < k ==> Forwardable(stream[i]))
    && r.journal.events == o.journal.events + Renumbered(stream[..k], |o.journal.events| + 1)
    && (ending.Done? ==> k == |stream| && r.journal.terminal)
    && (ending.Refused? ==>
        if k == |stream| then !r.journal.terminal else r.journal.terminal || !Forwardable(stream[k]))
  }

  lemma {:induction false} ForwardIsPrefix(
      o: Owner, stream: seq<Received>, terminal: bool, attempt: int -> Attempt)
      returns (k: nat)
    requires InStep(o, Done) && o.journal.terminal == terminal
    ensures var (r, ending) := Forward(o, stream, terminal, attempt);
            InStep(r, ending) && Forwards(o, stream, r, ending, k)
    decreases |stream|
  {
    hide Emit, JournalOk;
    k := 0;
    assert Renumbered(stream[..0], |o.journal.events| + 1) == [];
    if stream != [] && Forwardable(stream[0]) && !terminal {
      var (next, ending) := Emit(o, stream[0].kind, stream[0].value, attempt(o.sequence + 1));
      EmitInStep(o, stream[0].kind, stream[0].value, attempt(o.sequence + 1));
      if ending.Done? {
        var m := ForwardIsPrefix(next, stream[1..], stream[0].kind.Completed?, attempt);
        k := m + 1;
        RenumberedStep(stream, m, |o.journal.events| + 1);
      } else if !ending.NotPersisted? {
        k := 1;
        assert Renumbered(stream[..1], |o.journal.events| + 1)
            == [SessionEvent(o.sequence + 1, stream[0].kind, stream[0].value)];
      }
    }
  }

  lemma RenumberedStep(stream: seq<Received>, m: nat, first: int)
    requires m + 1 <= |stream| && forall i :: 0 <= i <= m ==> Forwardable(stream[i])
    requires forall i :: 0 <= i < m ==> Forwardable(stream[1..][i])
    ensures Renumbered(stream[..m + 1], first)
         == [SessionEvent(first, stream[0].kind, stream[0].value)] + Renumbered(stream[1..][..m], first + 1)
  {
  }

  /** The API server takes a write of this size whenever the journal does. */
  ghost predicate Serves(api: Api, e: SessionEvent) {
    api.readable && api.writable && |e.value| <= MAX_STORED_EVENT_BYTES && forall j :: api.bytes(j) <= MAX_JOURNAL_BYTES
  }

  /**
    * A failure is recorded exactly when no event was lost before it and the journal has room: an event
    * that could not be persisted has used up its number.
    */
  lemma FailureRecordedIff(o: Owner, ending: Ending, value: string, a: Attempt)
    requires InStep(o, ending) && !o.journal.terminal && Serves(a.api, SessionEvent(o.sequence + 1, Failed, value))
    ensures Emit(o, Failed, value, a).0.journal.terminal <==>
              !ending.NotPersisted? && |o.journal.events| < MAX_STORED_EVENTS
  {
  }

  /** Admission: the journal holds the accepted event alone, or nothing. */
  lemma AdmittedInStep(op: Operation, attempt: int -> Attempt)
    ensures var (o, first) := Admission(op, attempt);
            && InStep(o, first) && !o.journal.terminal
            && o.journal.events == if first.NotPersisted? then [] else [SessionEvent(1, Accepted, op.id)]
  {
    EmitInStep(Owner(Journal(op.digest, false, []), 0, []), Accepted, op.id, attempt(1));
  }

  /** The accepted event followed by the first k events of the Runtime Server. */
  ghost function Body(op: Operation, k: nat): seq<SessionEvent>
    requires k <= |op.stream| && forall i :: 0 <= i < k ==> Forwardable(op.stream[i])
  {
    [SessionEvent(1, Accepted, op.id)] + Renumbered(op.stream[..k], 2)
  }

  ghost predicate Holds(events: seq<SessionEvent>, op: Operation, k: nat) {
    && k <= |op.stream| && (forall i :: 0 <= i < k ==> Forwardable(op.stream[i]))
    && (events == [] || events == Body(op, k))
  }

  lemma ExecutedJournal(op: Operation, attempt: int -> Attempt) returns (k: nat)
    ensures var (o, ending) := Executed(op, attempt);
            && InStep(o, ending) && Holds(o.journal.events, op, k)
            && (ending.Done? ==> o.journal.terminal && k == |op.stream|)
  {
    AdmittedInStep(op, attempt);
    hide Admission, JournalOk;
    k := 0;
    assert Renumbered(op.stream[..0], 2) == [];
    var (o, first) := Admission(op, attempt);
    if first.Done? && op.runs {
      k := ForwardIsPrefix(o, op.stream, false, attempt);
    }
  }

  lemma FailureAppended(o: Owner, ending: Ending, value: string, a: Attempt)
    requires InStep(o, ending)
    ensures var r := Emit(o, Failed, value, a).0;
            && JournalOk(r.journal)
            && (r.journal == o.journal
                || r.journal.events == o.journal.events + [SessionEvent(|o.journal.events| + 1, Failed, value)])
  {
  }

  /**
    * The journal of a created operation is well formed and holds nothing, or the accepted event and a
    * renumbered prefix of what the Runtime Server emitted, and then at most one failure.
    */
  lemma OwnerJournal(op: Operation, failure: Ending -> string, attempt: int -> Attempt) returns (k: nat)
    ensures var events := Streamed(op, failure, attempt).journal.events;
            && JournalOk(Streamed(op, failure, attempt).journal)
            && (Holds(events, op, k)
                || (events != [] && Holds(events[..|events| - 1], op, k)
                    && events[|events| - 1] == SessionEvent(|events|, Failed, failure(Executed(op, attempt).1))))
  {
    k := ExecutedJournal(op, attempt);
    var (o, ending) := Executed(op, attempt);
    FailureAppended(o, ending, failure(ending), attempt(o.sequence + 1));
    hide Executed, JournalOk, Holds, Emit, Admission;
    var events := Streamed(op, failure, attempt).journal.events;
    if events != o.journal.events {
      assert events[..|events| - 1] == o.journal.events;
    }
  }

  /** One lost write in the middle leaves the operation open, though every later write would succeed. */
  lemma LostWriteLeavesOpen(digest: string, failure: Ending -> string)
    ensures exists stream, attempt ::
              && !Streamed(Operation(digest, "", true, stream), failure, attempt).journal.terminal
              && forall n :: n != 2 ==> attempt(n).api.writable
  {
    var stream := [Arrived(Output, "", true)];
    var attempt := (n: int) => Attempt(Api(true, n != 2, _ => 0), true);
    var r := Streamed(Operation(digest, "", true, stream), failure, attempt);
    assert r.journal.events == [SessionEvent(1, Accepted, "")];
    assert forall n :: n != 2 ==> attempt(n).api.writable;
  }

  // ---- forwarding by another Pod --------------------------------------------

  /** The longest prefix numbered 1, 2, ... and at most one terminal event, at its end. */
  ghost function Contiguous(events: seq<SessionEvent>, from: int): seq<SessionEvent> {
    if events == [] || events[0].sequence != from then []
    else if events[0].Terminal() then [events[0]]
    else [events[0]] + Contiguous(events[1..], from + 1)
  }

  /** It is a prefix, numbered on, ends with its only terminal event if it has one, and could not be longer. */
  lemma {:induction false} ContiguousMeans(events: seq<SessionEvent>, from: int)
    ensures var r := Contiguous(events, from);
            && r <= events
            && (forall i :: 0 <= i < |r| ==> r[i].sequence == from + i)
            && (forall i :: 0 <= i < |r| && r[i].Terminal() ==> i == |r| - 1)
            && (|r| < |events| ==>
                  (r != [] && r[|r| - 1].Terminal()) || events[|r|].sequence != from + |r|)
  {
    if events != [] && events[0].sequence == from && !events[0].Terminal() {
      ContiguousMeans(events[1..], from + 1);
      var r, rest := Contiguous(events, from), Contiguous(events[1..], from + 1);
      assert r == [events[0]] + rest && events == [events[0]] + events[1..];
      assert forall i :: 0 < i < |r| ==> r[i] == rest[i - 1];
    }
  }

  /** Passes the owner's events on unchanged; accepts is how many the caller takes before its stream breaks. */
  method ForwardPeerEvents(stream: seq<SessionEvent>, accepts: nat) returns (sent: seq<SessionEvent>, ok: bool)
    ensures sent == if |Contiguous(stream, 1)| <= accepts then Contiguous(stream, 1)
                    else Contiguous(stream, 1)[..accepts]
    ensures ok <==>
            && |stream| <= accepts && Contiguous(stream, 1) == stream
            && stream != [] && stream[|stream| - 1].Terminal()
  {
    sent := [];
    var terminal := false;
    var forwarded := 0;
    for i := 0 to |stream|
      invariant sent == stream[..i] && i <= accepts && forwarded == i
      invariant terminal <==> i > 0 && stream[i - 1].Terminal()
      invariant Contiguous(stream, 1) == if terminal then stream[..i] else stream[..i] + Contiguous(stream[i..], i + 1)
    {
      if terminal {
        return sent, false;
      }
      ContiguousStep(stream, i);
      if stream[i].sequence != forwarded + 1 {
        return sent, false;
      }
      forwarded := stream[i].sequence;
      if i == accepts {
        return sent, false;
      }
      sent := sent + [stream[i]];
      terminal := stream[i].Terminal();
    }
    ok := terminal;
  }

  lemma ContiguousStep(stream: seq<SessionEvent>, i: nat)
    requires i < |stream| && Contiguous(stream, 1) == stream[..i] + Contiguous(stream[i..], i + 1)
    ensures stream[i].sequence != i + 1 ==> Contiguous(stream, 1) == stream[..i]
    ensures stream[i].sequence == i + 1 ==> |Contiguous(stream, 1)| > i && Contiguous(stream, 1)[..i] == stream[..i]
    ensures stream[i].sequence == i + 1 && stream[i].Terminal() ==> Contiguous(stream, 1) == stream[..i + 1]
    ensures stream[i].sequence == i + 1 && !stream[i].Terminal() ==>
              Contiguous(stream, 1) == stream[..i + 1] + Contiguous(stream[i + 1..], i + 2)
  {
    assert stream[i..][1..] == stream[i + 1..];
    assert stream[..i + 1] == stream[..i] + [stream[i]];
  }

  lemma {:induction false} WholeJournalContiguous(events: seq<SessionEvent>, from: int)
    requires forall i :: 0 <= i < |events| ==> events[i].sequence == from + i
    requires forall i :: 0 <= i < |events| && events[i].Terminal() ==> i == |events| - 1
    ensures Contiguous(events, from) == events
  {
    if events != [] && !events[0].Terminal() {
      WholeJournalContiguous(events[1..], from + 1);
    } else if events != [] {
      assert events == [events[0]];
    }
  }

  /** A replay through another Pod arrives whole exactly when it starts at the beginning; otherwise nothing arrives. */
  lemma ForwardedReplayIff(j: Journal, after: nat)
    requires JournalOk(j) && after <= |j.events|
    ensures Contiguous(j.events[after..], 1) == if after == 0 then j.events else []
  {
    if after == 0 {
      WholeJournalContiguous(j.events, 1);
      assert j.events[0..] == j.events;
    }
  }

  // ---- resuming -------------------------------------------------------------

  /** Resuming an operation that no live process runs closes its journal first. */
  ghost function Interrupted(s: Store, key: string, message: string, api: Api): Store
    requires ChannelsExist(s) && key in s.journals
  {
    if key in s.active || s.journals[key].terminal then s
    else Appended(s, key, SessionEvent(|s.journals[key].events| + 1, Failed, message), api)
  }

  method ResumeSessionOperation(
      store: SessionOperationStore, key: string, after: int, id: nat, message: string, api: Api)
    returns (r: Result<seq<SessionEvent>>)
    requires ChannelsExist(store.State()) && id !in store.channels
    modifies store
    ensures after < 0 ==> r == Err(InvalidArgument) && store.State() == old(store.State())
    ensures r.Ok? ==>
              && key in old(store.journals)
              && var closed := Interrupted(old(store.State()), key, message, api);
                 key in closed.journals && store.State() == Subscribed(closed, key, id)
                     && r.value == After(closed.journals[key].events, after)
    ensures r.Ok? ==> key in store.active || store.journals[key].terminal
    ensures r.Ok? <==>
              && after >= 0 && api.readable && key in old(store.journals)
              && (key in old(store.active) || old(store.journals)[key].terminal
                  || Stored(old(store.journals)[key],
                            SessionEvent(|old(store.journals)[key].events| + 1, Failed, message), api).Ok?)
    ensures after >= 0 && !api.readable ==> r == Err(Unavailable)
    ensures after >= 0 && api.readable && key !in old(store.journals) ==> r == Err(NotFound)
    ensures r.Err? ==> store.State() == old(store.State())
  {
    if after < 0 {
      return Err(InvalidArgument);
    }
    if key !in store.active {
      if !api.readable {
        return Err(Unavailable);
      }
      if key !in store.journals {
        return Err(NotFound);
      }
      var record := store.journals[key];
      if !record.terminal {
        var failed := SessionEvent(|record.events| + 1, Failed, message);
        var appended := store.Append(key, failed, api);
        if appended.Err? {
          return Err(appended.error);
        }
      }
    }
    r := store.Subscribe(key, after, id, api);
  }

  /** An interrupted operation can be closed exactly when its journal is not full. */
  lemma InterruptedEndsIff(j: Journal, message: string, api: Api)
    requires JournalOk(j) && !j.terminal && Serves(api, SessionEvent(|j.events| + 1, Failed, message))
    ensures (exists next ::
              Stored(j, SessionEvent(|j.events| + 1, Failed, message), api) == Ok(next) && next.terminal
              && JournalOk(next))
       <==> |j.events| < MAX_STORED_EVENTS
  {
    if |j.events| < MAX_STORED_EVENTS {
      var next := Stored(j, SessionEvent(|j.events| + 1, Failed, message), api).value;
      assert next.terminal && JournalOk(next);
    }
  }
}
