/**
  * A caller that gives up while its operation is still being forwarded: the worker and the caller then
  * number and store events side by side, sharing one counter without a lock.
  */
module SessionGiveUp {
  import opened SessionJournal
  import opened SessionReplay
  import opened SessionProxy

  /**
    * Where a thread is in numbering and storing one event: the counter is read, written back one higher
    * and read again. lost says that the last event could not be stored.
    */
  datatype Thread = Resting | Loaded(value: int) | Counted | Numbered(number: int) | Ended(lost: bool)

  /** stored is how many of the Runtime Server's events are in the journal. */
  datatype State = State(journal: Journal, sequence: int, stored: nat, worker: Thread, caller: Thread)

  /** CallerStep(value) is on the way to the failure event; CallerLeaves is a return without one. */
  datatype Event = WorkerStep(attempt: Attempt) | CallerStep(value: string, api: Api) | CallerLeaves

  ghost function Initial(op: Operation): State {
    State.State(Journal(op.digest, false, [SessionEvent(1, Accepted, op.id)]), 1, 0, Resting, Resting)
  }

  /** The worker has stored the completion. */
  ghost predicate Completes(op: Operation, stored: nat)
    requires stored <= |op.stream|
  {
    stored > 0 && op.stream[stored - 1].Arrived? && op.stream[stored - 1].kind.Completed?
  }

  /** The worker receives the next event and finds nothing wrong with it. */
  ghost predicate Receives(op: Operation, s: State) {
    s.stored < |op.stream| && Forwardable(op.stream[s.stored]) && !Completes(op, s.stored)
  }

  ghost predicate Enabled(op: Operation, s: State, e: Event) {
    match e
    case WorkerStep(_) => !s.worker.Ended? && (s.worker.Numbered? ==> Receives(op, s))
    case CallerStep(_, _) => !s.caller.Ended?
    case CallerLeaves => s.caller.Resting? && s.worker.Ended? && s.journal.terminal
  }

  /** The counting that both threads do alike. */
  ghost function Advanced(t: Thread, sequence: int): (Thread, int)
    requires !t.Numbered? && !t.Ended?
  {
    match t
    case Resting => (Loaded(sequence), sequence)
    case Loaded(value) => (Counted, value + 1)
    case Counted => (Numbered(sequence), sequence)
  }

  ghost function Step(op: Operation, s: State, e: Event): State
    requires Enabled(op, s, e)
  {
    match e
    case WorkerStep(attempt) =>
      if s.worker.Resting? && !Receives(op, s) then s.(worker := Ended(false))
      else if s.worker.Numbered? then
        var event := SessionEvent(s.worker.number, op.stream[s.stored].kind, op.stream[s.stored].value);
        var next := Stored(s.journal, event, attempt.api);
        if next.Err? then s.(worker := Ended(true))
        else s.(journal := next.value, stored := s.stored + 1, worker := if attempt.sent then Resting else Ended(false))
      else
        var (worker, sequence) := Advanced(s.worker, s.sequence);
        s.(worker := worker, sequence := sequence)
    case CallerStep(value, api) =>
      if s.caller.Numbered? then
        var next := Stored(s.journal, SessionEvent(s.caller.number, Failed, value), api);
        s.(journal := if next.Err? then s.journal else next.value, caller := Ended(next.Err?))
      else
        var (caller, sequence) := Advanced(s.caller, s.sequence);
        s.(caller := caller, sequence := sequence)
    case CallerLeaves => s.(caller := Ended(false))
  }

  ghost predicate Behaviour(op: Operation, ss: seq<State>, es: seq<Event>) {
    && |ss| == |es| + 1 && ss[0] == Initial(op)
    && forall i :: 0 <= i < |es| ==> Enabled(op, ss[i], es[i]) && ss[i + 1] == Step(op, ss[i], es[i])
  }

  // ---- the journal stays in one piece ---------------------------------------

  ghost predicate Failure(events: seq<SessionEvent>) {
    events != [] && events[|events| - 1].kind.Failed? && events[|events| - 1].sequence == |events|
  }

  /** The accepted event, a renumbered prefix of the Runtime Server's events, and then at most one failure. */
  ghost predicate InOnePiece(op: Operation, j: Journal, k: nat) {
    && JournalOk(j) && k <= |op.stream| && (forall i :: 0 <= i < k ==> Forwardable(op.stream[i]))
    && (j.events == Body(op, k) || (Failure(j.events) && j.events[..|j.events| - 1] == Body(op, k)))
  }

  /** As long as the caller waits, the counter is ahead of the journal by the event in the worker's hands. */
  ghost predicate Counting(s: State) {
    s.caller.Resting? ==>
      && s.sequence == |s.journal.events| + (if Ahead(s.worker) then 1 else 0)
      && (s.worker.Loaded? ==> s.worker.value == s.sequence)
      && (s.worker.Numbered? ==> s.worker.number == s.sequence)
      && s.journal.events != [] && !s.journal.events[|s.journal.events| - 1].kind.Failed?
  }

  ghost predicate Ahead(worker: Thread) {
    worker.Counted? || worker.Numbered? || (worker.Ended? && worker.lost)
  }

  ghost predicate Inv(op: Operation, s: State) {
    && InOnePiece(op, s.journal, s.stored) && Counting(s)
    && (s.worker.Loaded? || s.worker.Counted? || s.worker.Numbered? ==> Receives(op, s))
  }

  lemma BodyGrows(op: Operation, k: nat)
    requires k < |op.stream| && forall i :: 0 <= i <= k ==> Forwardable(op.stream[i])
    ensures Body(op, k + 1) == Body(op, k) + [SessionEvent(k + 2, op.stream[k].kind, op.stream[k].value)]
    ensures |Body(op, k)| == k + 1
  {
  }

  lemma InitialInv(op: Operation)
    ensures Inv(op, Initial(op))
  {
    assert Body(op, 0) == [SessionEvent(1, Accepted, op.id)];
  }

  lemma WorkerStores(op: Operation, s: State, attempt: Attempt)
    requires Inv(op, s) && s.worker.Numbered?
    ensures Inv(op, Step(op, s, WorkerStep(attempt)))
  {
    var event := SessionEvent(s.worker.number, op.stream[s.stored].kind, op.stream[s.stored].value);
    if Stored(s.journal, event, attempt.api).Ok? {
      assert !s.journal.terminal && s.journal.events == Body(op, s.stored);
      BodyGrows(op, s.stored);
    }
  }

  lemma CallerStores(op: Operation, s: State, value: string, api: Api)
    requires Inv(op, s) && s.caller.Numbered?
    ensures Inv(op, Step(op, s, CallerStep(value, api)))
  {
    var event := SessionEvent(s.caller.number, Failed, value);
    if Stored(s.journal, event, api).Ok? {
      assert !s.journal.terminal && s.journal.events == Body(op, s.stored);
      assert (s.journal.events + [event])[..|s.journal.events|] == s.journal.events;
    }
  }

  lemma StepKeepsInv(op: Operation, s: State, e: Event)
    requires Inv(op, s) && Enabled(op, s, e)
    ensures Inv(op, Step(op, s, e))
  {
    if e.WorkerStep? && s.worker.Numbered? {
      WorkerStores(op, s, e.attempt);
    } else if e.CallerStep? && s.caller.Numbered? {
      CallerStores(op, s, e.value, e.api);
    } else {
      hide InOnePiece;
    }
  }

  lemma {:induction false} BehaviourKeepsInv(op: Operation, ss: seq<State>, es: seq<Event>, n: nat)
    requires Behaviour(op, ss, es) && n < |ss|
    ensures Inv(op, ss[n])
  {
    hide Inv, Enabled, Step;
    if n == 0 {
      InitialInv(op);
    } else {
      BehaviourKeepsInv(op, ss, es, n - 1);
      assert Enabled(op, ss[n - 1], es[n - 1]) && ss[n - 1 + 1] == Step(op, ss[n - 1], es[n - 1]);
      StepKeepsInv(op, ss[n - 1], es[n - 1]);
    }
  }

  /**
    * However the worker and the caller overtake each other, the journal is well formed and holds the
    * accepted event, a renumbered prefix of what the Runtime Server emitted, and at most one failure.
    */
  lemma GivenUpJournal(op: Operation, ss: seq<State>, es: seq<Event>, n: nat)
    requires Behaviour(op, ss, es) && n < |ss|
    ensures InOnePiece(op, ss[n].journal, ss[n].stored)
  {
    BehaviourKeepsInv(op, ss, es, n);
  }

  // ---- whether giving up is recorded ----------------------------------------

  /** The caller's four steps from giving up to the failure event. */
  ghost function GivenUp(op: Operation, s: State, value: string, api: Api): State
    requires s.caller.Resting?
  {
    var e := CallerStep(value, api);
    Step(op, Step(op, Step(op, Step(op, s, e), e), e), e)
  }

  /**
    * A caller that gives up undisturbed has its failure recorded exactly when the worker is not between
    * counting an event and storing it, has not lost one, and the journal has room.
    */
  lemma GiveUpRecordedIff(op: Operation, ss: seq<State>, es: seq<Event>, n: nat, value: string, api: Api)
    requires Behaviour(op, ss, es) && n < |ss| && ss[n].caller.Resting? && !ss[n].journal.terminal
    requires Serves(api, SessionEvent(ss[n].sequence + 1, Failed, value))
    ensures GivenUp(op, ss[n], value, api).journal.terminal
       <==> !Ahead(ss[n].worker) && |ss[n].journal.events| < MAX_STORED_EVENTS
  {
    BehaviourKeepsInv(op, ss, es, n);
    hide Behaviour, JournalOk, InOnePiece;
  }

  /** Every write succeeds, and yet the operation stays open: the worker was about to store an event. */
  lemma GiveUpLeavesOpen(digest: string, id: string) returns (ss: seq<State>, es: seq<Event>)
    ensures Behaviour(Operation(digest, id, true, [Arrived(Output, "", true)]), ss, es)
    ensures forall i :: 0 <= i < |es| && es[i].WorkerStep? ==> es[i].attempt == Attempt(Api(true, true, _ => 0), true)
    ensures forall i :: 0 <= i < |es| && es[i].CallerStep? ==> es[i].api == Api(true, true, _ => 0)
    ensures var t := ss[|es|]; t.worker.Ended? && t.caller.Ended? && !t.journal.terminal
  {
    var op := Operation(digest, id, true, [Arrived(Output, "", true)]);
    var api := Api(true, true, _ => 0);
    var w, g := WorkerStep(Attempt(api, true)), CallerStep("", api);
    es := [w, w, w, g, g, g, g, w, w];
    var s0 := Initial(op);
    var s3 := Step(op, Step(op, Step(op, s0, w), w), w);
    assert s3 == s0.(sequence := 2, worker := Numbered(2));
    var s7 := GivenUp(op, s3, "", api);
    assert s7 == s3.(sequence := 3, caller := Ended(true));
    var s8 := Step(op, s7, w);
    ss := [s0, Step(op, s0, w), Step(op, Step(op, s0, w), w), s3,
           Step(op, s3, g), Step(op, Step(op, s3, g), g), Step(op, Step(op, Step(op, s3, g), g), g), s7, s8,
           Step(op, s8, w)];
  }

  // ---- a caller that waits --------------------------------------------------

  /** Four steps of one thread, undisturbed, are taking the next number and storing the event under it. */
  lemma WorkerEmits(op: Operation, s: State, o: Owner, a: Attempt)
    requires s.worker.Resting? && Receives(op, s) && o.journal == s.journal && o.sequence == s.sequence
    ensures var e := WorkerStep(a);
            var received := op.stream[s.stored];
            var (r, ending) := Emit(o, received.kind, received.value, a);
            var u := s.(sequence := s.sequence + 1, worker := Numbered(s.sequence + 1));
            && Undisturbed(op, s, e) && Step(op, Step(op, Step(op, s, e), e), e) == u
            && Step(op, u, e)
               == s.(journal := r.journal, sequence := r.sequence,
                     stored := if ending.NotPersisted? then s.stored else s.stored + 1,
                     worker := if ending.Done? then Resting else Ended(ending.NotPersisted?))
  {
  }

  lemma CallerEmits(op: Operation, s: State, o: Owner, value: string, a: Attempt)
    requires s.caller.Resting? && o.journal == s.journal && o.sequence == s.sequence
    ensures Undisturbed(op, s, CallerStep(value, a.api))
    ensures GivenUp(op, s, value, a.api).journal == Emit(o, Failed, value, a).0.journal
  {
  }

  /** One thread goes through its four steps. */
  ghost predicate Undisturbed(op: Operation, s: State, e: Event) {
    && Enabled(op, s, e) && Enabled(op, Step(op, s, e), e) && Enabled(op, Step(op, Step(op, s, e), e), e)
    && Enabled(op, Step(op, Step(op, Step(op, s, e), e), e), e)
  }

  lemma FourSteps(
      op: Operation, ss: seq<State>, es: seq<Event>, e: Event)
      returns (states: seq<State>, events: seq<Event>)
    requires Behaviour(op, ss, es) && Undisturbed(op, ss[|es|], e)
    ensures Behaviour(op, states, events)
    ensures states[|events|] == Step(op, Step(op, Step(op, Step(op, ss[|es|], e), e), e), e)
  {
    hide Behaviour, Enabled, Step;
    states, events := OneStep(op, ss, es, e);
    states, events := OneStep(op, states, events, e);
    states, events := OneStep(op, states, events, e);
    states, events := OneStep(op, states, events, e);
  }

  lemma OneStep(
      op: Operation, ss: seq<State>, es: seq<Event>, e: Event)
      returns (states: seq<State>, events: seq<Event>)
    requires Behaviour(op, ss, es) && Enabled(op, ss[|es|], e)
    ensures Behaviour(op, states, events) && states[|events|] == Step(op, ss[|es|], e)
  {
    hide Enabled, Step;
    states, events := ss + [Step(op, ss[|es|], e)], es + [e];
  }

  /** The worker alone, from its next event on, does what the forwarding loop does. */
  lemma {:induction false} ForwardRuns(
      op: Operation, ss: seq<State>, es: seq<Event>, o: Owner, attempt: int -> Attempt)
      returns (states: seq<State>, events: seq<Event>)
    requires Behaviour(op, ss, es) && ss[|es|].worker.Resting? && ss[|es|].caller.Resting?
    requires o.journal == ss[|es|].journal && o.sequence == ss[|es|].sequence && ss[|es|].stored <= |op.stream|
    ensures Behaviour(op, states, events) && states[|events|].worker.Ended? && states[|events|].caller.Resting?
    ensures var s := ss[|es|];
            var r := Forward(o, op.stream[s.stored..], Completes(op, s.stored), attempt).0;
            states[|events|].journal == r.journal && states[|events|].sequence == r.sequence
    decreases |op.stream| - ss[|es|].stored
  {
    hide Emit;
    var s := ss[|es|];
    var a := attempt(o.sequence + 1);
    if !Receives(op, s) {
      states, events := OneStep(op, ss, es, WorkerStep(a));
    } else {
      var received := op.stream[s.stored];
      WorkerEmits(op, s, o, a);
      var (next, ending) := Emit(o, received.kind, received.value, a);
      states, events := FourSteps(op, ss, es, WorkerStep(a));
      assert op.stream[s.stored..][1..] == op.stream[s.stored + 1..];
      if ending.Done? {
        states, events := ForwardRuns(op, states, events, next, attempt);
      }
    }
  }

  /** With a caller that waits for its operation this is the owner's streaming of it. */
  lemma WaitingIsStreamed(
      op: Operation, failure: Ending -> string, attempt: int -> Attempt)
      returns (ss: seq<State>, es: seq<Event>)
    requires Admission(op, attempt).1.Done?
    ensures Behaviour(op, ss, es) && ss[|es|].journal == Streamed(op, failure, attempt).journal
  {
    var o := Admission(op, attempt).0;
    ss, es := [Initial(op)], [];
    AdmittedInStep(op, attempt);
    assert o.journal == Initial(op).journal && o.sequence == 1;
    if op.runs {
      ss, es := ForwardRuns(op, ss, es, o, attempt);
      assert op.stream[0..] == op.stream;
    }
    var (r, ending) := Executed(op, attempt);
    if !ending.Done? {
      var a := attempt(r.sequence + 1);
      CallerEmits(op, ss[|es|], r, failure(ending), a);
      ss, es := FourSteps(op, ss, es, CallerStep(failure(ending), a.api));
    }
  }
}
