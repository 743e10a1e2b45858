/** What the operation store answers over whole runs: to Begin, to Append, and to live readers. */
module SessionAnswers {
  import opened SessionJournal
  import opened SessionReplay

  // ---- Begin ----------------------------------------------------------------

  ghost function BeginAnswer(s: State, e: Event): Result<bool>
    requires e.Begun?
  {
    BeginOutcome(s.store.journals, e.key, e.digest, e.api)
  }

  /** The i-th step of the run created the operation for a request with this digest. */
  ghost predicate CreatedAt(ss: seq<State>, es: seq<Event>, i: nat, key: string, digest: string) {
    CreatingStep(ss, es, i, key) && es[i].digest == digest
  }

  ghost predicate CreatingStep(ss: seq<State>, es: seq<Event>, i: nat, key: string) {
    && |ss| == |es| + 1 && i < |es| && es[i].Begun? && es[i].key == key
    && key !in ss[i].store.journals && key in ss[i + 1].store.journals
  }

  ghost predicate Created(ss: seq<State>, es: seq<Event>, n: nat, key: string, digest: string) {
    exists i: nat :: i < n && CreatedAt(ss, es, i, key, digest)
  }

  lemma StepOf(ss: seq<State>, es: seq<Event>, n: nat)
    requires Behaviour(ss, es) && n < |es|
    ensures Enabled(ss[n], es[n]) && ss[n + 1] == Step(ss[n], es[n]) && |ss| == |es| + 1
  {
  }

  /** A journal appears by a Begin only, with the digest of that request. */
  lemma NewJournal(s: State, e: Event, key: string)
    requires Inv(s) && Enabled(s, e) && key !in s.store.journals && key in Step(s, e).store.journals
    ensures e.Begun? && e.key == key && Step(s, e).store.journals[key] == Journal(e.digest, false, [])
  {
    hide Inv;
  }

  lemma JournalStep(ss: seq<State>, es: seq<Event>, n: nat, key: string)
    requires Behaviour(ss, es) && n < |es|
    ensures |ss| == |es| + 1
    ensures key in ss[n].store.journals ==>
              && key in ss[n + 1].store.journals && !CreatingStep(ss, es, n, key)
              && ss[n + 1].store.journals[key].digest == ss[n].store.journals[key].digest
    ensures key !in ss[n].store.journals ==>
              && (key in ss[n + 1].store.journals <==> CreatingStep(ss, es, n, key))
              && (key in ss[n + 1].store.journals ==>
                    es[n].Begun? && ss[n + 1].store.journals[key].digest == es[n].digest)
  {
    BehaviourKeepsInv(ss, es, n);
    StepOf(ss, es, n);
    hide Behaviour, Inv, Enabled, Step;
    if key in ss[n].store.journals {
      StepGrows(ss[n], es[n], key);
    } else if key in ss[n + 1].store.journals {
      NewJournal(ss[n], es[n], key);
    }
  }

  lemma CreatedNext(ss: seq<State>, es: seq<Event>, n: nat, key: string, digest: string)
    requires n < |es|
    ensures Created(ss, es, n + 1, key, digest) <==>
              || Created(ss, es, n, key, digest)
              || (CreatingStep(ss, es, n, key) && es[n].Begun? && es[n].digest == digest)
  {
    assert CreatedAt(ss, es, n, key, digest) <==>
      CreatingStep(ss, es, n, key) && es[n].Begun? && es[n].digest == digest;
    hide CreatedAt, CreatingStep;
    if Created(ss, es, n, key, digest) {
      var i: nat :| i < n && CreatedAt(ss, es, i, key, digest);
    }
  }

  lemma AtFirst(ss: seq<State>, es: seq<Event>, key: string)
    requires Behaviour(ss, es)
    ensures |ss| == |es| + 1 && key !in ss[0].store.journals
    ensures forall digest :: !Created(ss, es, 0, key, digest)
  {
  }

  lemma {:induction false} JournalIsOfItsRequest(ss: seq<State>, es: seq<Event>, n: nat, key: string)
    requires Behaviour(ss, es) && n < |ss|
    ensures key in ss[n].store.journals <==> exists digest :: Created(ss, es, n, key, digest)
    ensures forall digest :: Created(ss, es, n, key, digest) ==>
              key in ss[n].store.journals && ss[n].store.journals[key].digest == digest
  {
    hide *;
    AtFirst(ss, es, key);
    if n > 0 {
      JournalStep(ss, es, n - 1, key);
      JournalIsOfItsRequest(ss, es, n - 1, key);
      forall digest
        ensures Created(ss, es, n, key, digest) <==>
                  || Created(ss, es, n - 1, key, digest)
                  || (CreatingStep(ss, es, n - 1, key) && es[n - 1].Begun? && es[n - 1].digest == digest)
      {
        CreatedNext(ss, es, n - 1, key, digest);
      }
      if key in ss[n - 1].store.journals {
        var digest :| Created(ss, es, n - 1, key, digest);
        assert Created(ss, es, n, key, digest);
      } else if key in ss[n].store.journals {
        assert Created(ss, es, n, key, es[n - 1].digest);
      }
    }
  }

  /**
    * What every Begin of every run is answered: an operation is created for the first request that asks,
    * the same request finds it again, and a different request under its key is refused.
    */
  lemma BeginAnswers(ss: seq<State>, es: seq<Event>, n: nat)
    requires Behaviour(ss, es) && n < |es| && es[n].Begun?
    ensures var e := es[n];
            BeginAnswer(ss[n], e)
            == if e.key == "" || e.digest == "" then Err(InvalidArgument)
               else if !e.api.readable then Err(Unavailable)
               else if Created(ss, es, n, e.key, e.digest) then Ok(false)
               else if exists other :: Created(ss, es, n, e.key, other) then Err(AlreadyExists)
               else if !e.api.writable then Err(Unavailable)
               else Ok(true)
    ensures BeginAnswer(ss[n], es[n]) == Ok(true) <==> CreatedAt(ss, es, n, es[n].key, es[n].digest)
  {
    JournalIsOfItsRequest(ss, es, n, es[n].key);
    StepOf(ss, es, n);
    hide Behaviour, Created;
  }

  /** A caller that is let in finds the journal of its own request. */
  lemma LetInToItsOwn(ss: seq<State>, es: seq<Event>, i: nat, n: nat)
    requires Behaviour(ss, es) && i < n < |ss| && es[i].Begun? && BeginAnswer(ss[i], es[i]).Ok?
    ensures es[i].key in ss[n].store.journals && ss[n].store.journals[es[i].key].digest == es[i].digest
  {
    BeginAnswers(ss, es, i);
    JournalIsOfItsRequest(ss, es, i, es[i].key);
    StepOf(ss, es, i);
    hide Behaviour, Created;
    if BeginAnswer(ss[i], es[i]) == Ok(false) {
      BehaviourKeepsInv(ss, es, i);
      StepGrows(ss[i], es[i], es[i].key);
    }
    JournalGrows(ss, es, i + 1, n, es[i].key);
  }

  /** An idempotency key is never used for two different requests. */
  lemma KeyIsOfOneRequest(ss: seq<State>, es: seq<Event>, i: nat, j: nat)
    requires Behaviour(ss, es) && i < |es| && j < |es| && es[i].Begun? && es[j].Begun? && es[i].key == es[j].key
    requires BeginAnswer(ss[i], es[i]).Ok? && BeginAnswer(ss[j], es[j]).Ok?
    ensures es[i].digest == es[j].digest
  {
    LetInToItsOwn(ss, es, i, |es|);
    LetInToItsOwn(ss, es, j, |es|);
  }

  // ---- which operations are active ------------------------------------------

  /** The process that created the operation is still the one that runs. */
  ghost predicate SameProcess(ss: seq<State>, es: seq<Event>, n: nat, key: string) {
    exists i: nat :: i < n && CreatingStep(ss, es, i, key) && NoRestart(es, i, n)
  }

  ghost predicate NoRestart(es: seq<Event>, i: nat, n: nat) {
    forall m :: i < m < n && m < |es| ==> !es[m].Restarted?
  }

  lemma ActiveStep(s: State, e: Event, key: string)
    requires Inv(s) && Enabled(s, e)
    ensures var t := Step(s, e);
            key in t.store.active <==>
              && !e.Restarted? && key in t.store.journals && !t.store.journals[key].terminal
              && (key in s.store.active || key !in s.store.journals)
  {
    hide ReaderOk;
    if e.AppendTried? && key in s.store.journals {
      AppendedJournal(s.store, e.key, e.event, e.api, key);
    }
  }

  /** An operation counts as running exactly until it ends or the process that created it does. */
  lemma {:induction false} ActiveIff(ss: seq<State>, es: seq<Event>, n: nat, key: string)
    requires Behaviour(ss, es) && n < |ss|
    ensures key in ss[n].store.active <==>
              SameProcess(ss, es, n, key) && key in ss[n].store.journals && !ss[n].store.journals[key].terminal
  {
    if n > 0 {
      ActiveIff(ss, es, n - 1, key);
      JournalIsOfItsRequest(ss, es, n - 1, key);
      BehaviourKeepsInv(ss, es, n - 1);
      StepOf(ss, es, n - 1);
      ActiveStep(ss[n - 1], es[n - 1], key);
      if key in ss[n - 1].store.journals {
        StepGrows(ss[n - 1], es[n - 1], key);
      } else if key in ss[n].store.journals {
        NewJournal(ss[n - 1], es[n - 1], key);
      }
      hide Inv, Behaviour, Enabled, Step, Created;
      SameProcessStep(ss, es, n, key);
    }
  }

  lemma SameProcessStep(ss: seq<State>, es: seq<Event>, n: nat, key: string)
    requires 0 < n <= |es| && |ss| == |es| + 1
    ensures SameProcess(ss, es, n, key) <==>
              || (SameProcess(ss, es, n - 1, key) && !es[n - 1].Restarted?)
              || CreatingStep(ss, es, n - 1, key)
  {
    if SameProcess(ss, es, n, key) {
      var i: nat :| i < n && CreatingStep(ss, es, i, key) && NoRestart(es, i, n);
      if i < n - 1 {
        assert NoRestart(es, i, n - 1);
      }
    }
    if SameProcess(ss, es, n - 1, key) && !es[n - 1].Restarted? {
      var i: nat :| i < n - 1 && CreatingStep(ss, es, i, key) && NoRestart(es, i, n - 1);
      assert NoRestart(es, i, n);
    }
    if CreatingStep(ss, es, n - 1, key) {
      assert NoRestart(es, n - 1, n);
    }
  }

  // ---- Append ---------------------------------------------------------------

  /** The journal with one more event. */
  ghost function Extended(j: Journal, e: SessionEvent): Journal {
    Journal(j.digest, e.kind == Completed || e.kind == Failed, j.events + [e])
  }

  ghost predicate Acceptable(journals: map<string, Journal>, key: string, e: SessionEvent, api: Api) {
    && key in journals && !journals[key].terminal && |journals[key].events| < 128
    && e.sequence == |journals[key].events| + 1 && |e.value| <= 8192
    && api.readable && api.writable && api.bytes(Extended(journals[key], e)) <= 786432
  }

  /** Append stores exactly the next event of an open, known journal that stays within every limit. */
  lemma AppendAcceptsIff(journals: map<string, Journal>, key: string, e: SessionEvent, api: Api)
    ensures AppendOutcome(journals, key, e, api).Ok? <==> Acceptable(journals, key, e, api)
    ensures Acceptable(journals, key, e, api) ==>
              AppendOutcome(journals, key, e, api) == Ok(Extended(journals[key], e))
  {
  }

  /** The event has a number and a size that could be stored, and its journal can be read and is still open. */
  ghost predicate Considered(journals: map<string, Journal>, key: string, e: SessionEvent, api: Api) {
    e.sequence > 0 && |e.value| <= 8192 && api.readable && key in journals && !journals[key].terminal
  }

  /** Why an event is refused. */
  lemma AppendRefusals(journals: map<string, Journal>, key: string, e: SessionEvent, api: Api)
    ensures var r := AppendOutcome(journals, key, e, api);
            && (r == Err(InvalidArgument) <==> e.sequence <= 0)
            && (r == Err(NotFound) <==> e.sequence > 0 && |e.value| <= 8192 && api.readable && key !in journals)
            && (r == Err(FailedPrecondition) <==>
                  e.sequence > 0 && |e.value| <= 8192 && api.readable && key in journals && journals[key].terminal)
            && (r == Err(Internal) <==>
                  && Considered(journals, key, e, api)
                  && |journals[key].events| < 128 && e.sequence != |journals[key].events| + 1)
            && (r == Err(ResourceExhausted) <==>
                  || (e.sequence > 0 && |e.value| > 8192)
                  || (&& Considered(journals, key, e, api)
                      && (|journals[key].events| >= 128
                          || (e.sequence == |journals[key].events| + 1
                              && api.bytes(Extended(journals[key], e)) > MAX_JOURNAL_BYTES))))
            && (r == Err(Unavailable) <==>
                  || (e.sequence > 0 && |e.value| <= 8192 && !api.readable)
                  || (&& Considered(journals, key, e, api) && !api.writable
                      && |journals[key].events| < 128 && e.sequence == |journals[key].events| + 1
                      && api.bytes(Extended(journals[key], e)) <= MAX_JOURNAL_BYTES))
            && r != Err(AlreadyExists)
  {
  }

  /** In every run a journal changes only by the events accepted for it, one after the other. */
  lemma JournalHoldsAccepted(ss: seq<State>, es: seq<Event>, n: nat, key: string)
    requires Behaviour(ss, es) && n < |es| && key in ss[n].store.journals
    ensures key in ss[n + 1].store.journals
    ensures var e, j := es[n], ss[n].store.journals[key];
            ss[n + 1].store.journals[key]
            == if e.AppendTried? && e.key == key && Acceptable(ss[n].store.journals, key, e.event, e.api)
               then Extended(j, e.event) else j
  {
    BehaviourKeepsInv(ss, es, n);
    StepOf(ss, es, n);
    hide Behaviour, ReaderOk;
    if es[n].AppendTried? {
      AppendAcceptsIff(ss[n].store.journals, es[n].key, es[n].event, es[n].api);
      AppendedJournal(ss[n].store, es[n].key, es[n].event, es[n].api, key);
      hide AppendOutcome;
    }
  }

  /** Every stored event is small enough. */
  lemma {:induction false} EventsFit(ss: seq<State>, es: seq<Event>, n: nat, key: string, i: nat)
    requires Behaviour(ss, es) && n < |ss| && key in ss[n].store.journals && i < |ss[n].store.journals[key].events|
    ensures |ss[n].store.journals[key].events[i].value| <= 8192
  {
    hide Behaviour;
    AtFirst(ss, es, key);
    if n > 0 && key in ss[n - 1].store.journals {
      JournalHoldsAccepted(ss, es, n - 1, key);
      if i < |ss[n - 1].store.journals[key].events| {
        EventsFit(ss, es, n - 1, key, i);
      }
    } else if n > 0 {
      NewJournalIsEmpty(ss, es, n - 1, key);
    }
  }

  lemma NewJournalIsEmpty(ss: seq<State>, es: seq<Event>, n: nat, key: string)
    requires Behaviour(ss, es) && n < |es| && key !in ss[n].store.journals && key in ss[n + 1].store.journals
    ensures ss[n + 1].store.journals[key].events == []
  {
    BehaviourKeepsInv(ss, es, n);
    StepOf(ss, es, n);
    hide Behaviour, Inv, Enabled, Step;
    NewJournal(ss[n], es[n], key);
  }

  // ---- live readers ---------------------------------------------------------

  ghost predicate Attached(s: State, r: nat, key: string) {
    Streaming(s, r) && Registered(s.store, key, s.readers[r].stream.value.channel)
  }

  /**
    * An accepted event reaches every attached reader that has fewer than sixteen events waiting; a reader
    * with sixteen keeps those and is detached. A terminal event detaches all.
    */
  lemma AttachedReaderIsServed(ss: seq<State>, es: seq<Event>, n: nat, r: nat)
    requires Behaviour(ss, es) && n < |es| && es[n].AppendTried? && Attached(ss[n], r, es[n].key)
    requires Acceptable(ss[n].store.journals, es[n].key, es[n].event, es[n].api)
    ensures Streaming(ss[n + 1], r) && ss[n + 1].readers == ss[n].readers
    ensures var e, waiting := es[n].event, Live(ss[n], r).buffer;
            && Live(ss[n + 1], r).buffer == (if |waiting| < 16 then waiting + [e] else waiting)
            && (Attached(ss[n + 1], r, es[n].key) <==> |waiting| < 16 && !e.Terminal())
            && (Live(ss[n + 1], r).open <==> |waiting| < 16 && !e.Terminal())
  {
    BehaviourKeepsInv(ss, es, n);
    StepOf(ss, es, n);
    hide Behaviour, ReaderOk;
    AppendAcceptsIff(ss[n].store.journals, es[n].key, es[n].event, es[n].api);
    hide AppendOutcome;
  }

  /** An open channel is one that still gets events. */
  ghost predicate ServedOrClosed(s: State, r: nat) {
    Streaming(s, r) && Live(s, r).open ==> Attached(s, r, s.readers[r].key)
  }

  lemma AppendKeepsServed(s: State, e: Event, r: nat)
    requires Inv(s) && Enabled(s, e) && e.AppendTried? && ServedOrClosed(s, r)
    ensures ServedOrClosed(Step(s, e), r)
  {
    hide ReaderOk, AppendOutcome, StoreOk, ChannelsDistinct;
  }

  lemma SubscribeKeepsServed(s: State, e: Event, r: nat)
    requires Inv(s) && Enabled(s, e) && e.SubscribedBy? && ServedOrClosed(s, r)
    ensures ServedOrClosed(Step(s, e), r)
  {
    if Streaming(Step(s, e), r) {
      var k := s.readers[r].key;
      SubscribeRegistered(s.store, s.readers[e.reader].key, s.next, k, Step(s, e).readers[r].stream.value.channel);
    }
    hide StoreOk;
  }

  lemma DetachKeepsServed(s: State, e: Event, r: nat)
    requires Inv(s) && Enabled(s, e) && e.DetachedBy? && ServedOrClosed(s, r)
    ensures ServedOrClosed(Step(s, e), r)
  {
    hide StoreOk, ReaderOk;
  }

  lemma StepKeepsServed(s: State, e: Event, r: nat)
    requires Inv(s) && Enabled(s, e) && ServedOrClosed(s, r)
    ensures ServedOrClosed(Step(s, e), r)
  {
    hide Inv;
    match e
    case AppendTried(_, _, _) => AppendKeepsServed(s, e, r);
    case SubscribedBy(_) => SubscribeKeepsServed(s, e, r);
    case DetachedBy(_) => DetachKeepsServed(s, e, r);
    case Begun(_, _, _) =>
    case Joined(_, _, _) =>
    case DeliveredTo(_) =>
    case Restarted =>
  }

  /**
    * Nobody is left waiting: a reader's channel is open exactly while it is registered for the reader's own
    * operation, and that operation has no terminal event yet. Otherwise the reader sees its stream end.
    */
  lemma {:induction false} OpenIffServed(ss: seq<State>, es: seq<Event>, n: nat, r: nat)
    requires Behaviour(ss, es) && n < |ss| && Streaming(ss[n], r)
    ensures Live(ss[n], r).open <==> Attached(ss[n], r, ss[n].readers[r].key)
    ensures var key := ss[n].readers[r].key;
            && key in ss[n].store.journals
            && (Live(ss[n], r).open ==> forall e :: e in ss[n].store.journals[key].events ==> !e.Terminal())
  {
    BehaviourKeepsInv(ss, es, n);
    ServedThroughout(ss, es, n, r);
    hide Behaviour;
  }

  lemma {:induction false} ServedThroughout(ss: seq<State>, es: seq<Event>, n: nat, r: nat)
    requires Behaviour(ss, es) && n < |ss|
    ensures ServedOrClosed(ss[n], r)
  {
    hide *;
    NobodyAtFirst(ss, es, r);
    if n > 0 {
      ServedThroughout(ss, es, n - 1, r);
      BehaviourKeepsInv(ss, es, n - 1);
      StepOf(ss, es, n - 1);
      StepKeepsServed(ss[n - 1], es[n - 1], r);
    }
  }

  lemma NobodyAtFirst(ss: seq<State>, es: seq<Event>, r: nat)
    requires Behaviour(ss, es)
    ensures |ss| == |es| + 1 && ServedOrClosed(ss[0], r)
  {
  }

  /** Subscribing attaches the reader exactly when more can come. */
  lemma SubscriberIsAttached(s: State, r: nat)
    requires Inv(s) && Enabled(s, SubscribedBy(r))
    ensures var t, key := Step(s, SubscribedBy(r)), s.readers[r].key;
            && Streaming(t, r) && Live(t, r).buffer == [] && t.store.journals == s.store.journals
            && (Attached(t, r, key) <==> forall e :: e in s.store.journals[key].events ==> !e.Terminal())
  {
    var key := s.readers[r].key;
    EndedIff(s.store.journals[key]) by {
      assert JournalOk(s.store.journals[key]);
    }
    hide Inv;
    SubscribeRegistered(s.store, key, s.next, key, s.next);
    hide Registered, JournalOk;
  }

  lemma EndedIff(j: Journal)
    requires JournalOk(j)
    ensures j.terminal <==> exists e :: e in j.events && e.Terminal()
  {
  }

  /** A reader that leaves is registered nowhere and finds its channel closed. */
  lemma DetachIsComplete(s: State, r: nat, k: string)
    requires Inv(s) && Enabled(s, DetachedBy(r)) && ServedOrClosed(s, r)
    ensures var t, id := Step(s, DetachedBy(r)), s.readers[r].stream.value.channel;
            && t.store.journals == s.store.journals && !Streaming(t, r)
            && id in t.store.channels && !t.store.channels[id].open && !Registered(t.store, k, id)
  {
    hide Inv, ChannelsExist;
    var reader := s.readers[r];
    OwnChannel(s, r, k);
    CancelRegistered(s.store, reader.key, reader.stream.value.channel, k, reader.stream.value.channel);
  }

  lemma OwnChannel(s: State, r: nat, k: string)
    requires Inv(s) && Streaming(s, r)
    ensures ChannelsExist(s.store)
    ensures Registered(s.store, k, s.readers[r].stream.value.channel) ==> k == s.readers[r].key
  {
    assert ReaderOk(s.store, s.readers[r]);
    hide Registered;
  }

  lemma ChannelsDiffer(s: State, r: nat, o: nat)
    requires Inv(s) && r in s.readers && o != r && Streaming(s, o)
    ensures s.readers[o].stream.value.channel < s.next && ChannelsExist(s.store)
    ensures s.readers[r].stream.Some? ==> s.readers[r].stream.value.channel != s.readers[o].stream.value.channel
  {
    hide ReaderOk;
  }

  /** Subscribing changes nothing that another reader is attached to or has waiting. */
  lemma SubscribeSparesOthers(s: State, r: nat, o: nat, k: string)
    requires Inv(s) && Enabled(s, SubscribedBy(r)) && o != r && Attached(s, o, k)
    ensures var t := Step(s, SubscribedBy(r)); Attached(t, o, k) && Live(t, o) == Live(s, o)
  {
    hide Inv, ChannelsExist;
    ChannelsDiffer(s, r, o);
    SubscribeRegistered(s.store, s.readers[r].key, s.next, k, s.readers[o].stream.value.channel);
    hide Registered, After;
  }

  /** Neither does leaving. */
  lemma DetachSparesOthers(s: State, r: nat, o: nat, k: string)
    requires Inv(s) && Enabled(s, DetachedBy(r)) && o != r && Attached(s, o, k)
    ensures var t := Step(s, DetachedBy(r)); Attached(t, o, k) && Live(t, o) == Live(s, o)
  {
    hide Inv, ChannelsExist;
    ChannelsDiffer(s, r, o);
    var id := s.readers[r].stream.value.channel;
    CancelRegistered(s.store, s.readers[r].key, id, k, s.readers[o].stream.value.channel);
    hide Registered;
  }
}
