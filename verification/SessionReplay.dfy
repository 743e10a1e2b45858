/**
  * Every run of the operation store with its readers: begins, appends, subscriptions, deliveries,
  * slow readers, cancelled streams and restarts, in any order.
  */
module SessionReplay {
  import opened Common
  import opened SessionJournal

  /** One subscription: what is still to be replayed, then the live channel. */
  datatype Stream = Stream(backlog: seq<SessionEvent>, channel: nat)

  /**
    * A reader that started from a cursor of its own and resumes from the last sequence it was delivered.
    * from records where in the journal its deliveries begin.
    */
  datatype Reader = Reader(key: string, start: nat, from: nat, delivered: seq<SessionEvent>, stream: Option<Stream>) {
    function Cursor(): int {
      if delivered == [] then start else delivered[|delivered| - 1].sequence
    }
  }

  datatype State = State(store: Store, next: nat, readers: map<nat, Reader>)

  datatype Event =
    | Begun(key: string, digest: string, api: Api)
    | AppendTried(key: string, event: SessionEvent, api: Api)
    | Joined(reader: nat, key: string, start: nat)
    | SubscribedBy(reader: nat)
    | DeliveredTo(reader: nat)
    | DetachedBy(reader: nat)
    | Restarted

  ghost predicate Streaming(s: State, r: nat) {
    r in s.readers && s.readers[r].stream.Some? && s.readers[r].stream.value.channel in s.store.channels
  }

  ghost function Live(s: State, r: nat): Channel
    requires Streaming(s, r)
  {
    s.store.channels[s.readers[r].stream.value.channel]
  }

  ghost predicate Enabled(s: State, e: Event) {
    match e
    case Begun(_, _, _) => true
    case AppendTried(_, _, _) => ChannelsExist(s.store)
    case Joined(reader, key, _) => reader !in s.readers && key in s.store.journals
    case SubscribedBy(reader) =>
      reader in s.readers && s.readers[reader].stream.None? && s.readers[reader].key in s.store.journals
    case DeliveredTo(reader) =>
           Streaming(s, reader) && (s.readers[reader].stream.value.backlog != [] || Live(s, reader).buffer != [])
    case DetachedBy(reader) => Streaming(s, reader)
    case Restarted => true
  }

  /** The step hands its caller the right to submit the operation. */
  ghost predicate Creates(s: State, e: Event, key: string) {
    e.Begun? && e.key == key && BeginOutcome(s.store.journals, key, e.digest, e.api) == Ok(true)
  }

  ghost function Step(s: State, e: Event): State
    requires Enabled(s, e)
  {
    match e
    case Begun(key, digest, api) =>
      if BeginOutcome(s.store.journals, key, digest, api) == Ok(true) then
        s.(store := s.store.(journals := s.store.journals[key := Journal(digest, false, [])],
                             active := s.store.active + {key}))
      else s
    case AppendTried(key, event, api) => s.(store := Appended(s.store, key, event, api))
    case Joined(reader, key, start) =>
      s.(readers := s.readers[reader := Reader(key, start, Position(start, |s.store.journals[key].events|), [], None)])
    case SubscribedBy(reader) =>
      var r := s.readers[reader];
      s.(store := Subscribed(s.store, r.key, s.next), next := s.next + 1,
         readers := s.readers[reader := Subscribing(s.store.journals[r.key].events, r, s.next)])
    case DeliveredTo(reader) => Deliver(s, reader)
    case DetachedBy(reader) =>
      var r := s.readers[reader];
      s.(store := Cancelled(s.store, r.key, r.stream.value.channel), readers := s.readers[reader := r.(stream := None)])
    case Restarted =>
      s.(store := Store(s.store.journals, {}, map[], map[]),
         readers := map r | r in s.readers :: s.readers[r].(stream := None))
  }

  /** Where a cursor points in a journal of n events. */
  ghost function Position(cursor: nat, n: nat): nat {
    if cursor <= n then cursor else n
  }

  /** The reader with a new subscription: the retained events after its cursor, then the channel. */
  ghost function Subscribing(events: seq<SessionEvent>, r: Reader, id: nat): Reader {
    r.(from := if r.delivered == [] then Position(r.start, |events|) else r.from,
       stream := Some(Stream(After(events, r.Cursor()), id)))
  }

  /** The replayed events come first, then whatever the channel holds. */
  ghost function Deliver(s: State, reader: nat): State
    requires Enabled(s, DeliveredTo(reader))
  {
    var r := s.readers[reader];
    var stream := r.stream.value;
    if stream.backlog != [] then
      s.(readers := s.readers[reader := r.(delivered := r.delivered + [stream.backlog[0]],
                                           stream := Some(stream.(backlog := stream.backlog[1..])))])
    else
      var c := Live(s, reader);
      s.(readers := s.readers[reader := r.(delivered := r.delivered + [c.buffer[0]])],
         store := s.store.(channels := s.store.channels[stream.channel := c.(buffer := c.buffer[1..])]))
  }

  ghost predicate Behaviour(ss: seq<State>, es: seq<Event>) {
    && |ss| == |es| + 1 && ss[0] == State(Store(map[], {}, map[], map[]), 0, map[])
    && forall i :: 0 <= i < |es| ==> Enabled(ss[i], es[i]) && ss[i + 1] == Step(ss[i], es[i])
  }

  // ---- the invariant --------------------------------------------------------

  /** Numbered 1..n with n at most 128, and terminal exactly when the last event is; no other event is. */
  ghost predicate JournalOk(j: Journal) {
    && |j.events| <= MAX_STORED_EVENTS
    && (forall i :: 0 <= i < |j.events| ==> j.events[i].sequence == i + 1)
    && (forall i :: 0 <= i < |j.events| && j.events[i].Terminal() ==> j.terminal && i == |j.events| - 1)
    && (j.terminal ==> j.events != [] && j.events[|j.events| - 1].Terminal())
  }

  ghost predicate Registered(s: Store, key: string, id: nat) {
    key in s.subscribers && id in s.subscribers[key]
  }

  /** A registered channel is open, and its operation has not ended. */
  ghost predicate SubscriptionsOk(s: Store) {
    && ChannelsExist(s)
    && (forall key, id :: Registered(s, key, id) ==>
          key in s.journals && !s.journals[key].terminal && s.channels[id].open)
    && (forall a, b, id :: Registered(s, a, id) && Registered(s, b, id) ==> a == b)
    && (forall id :: id in s.channels ==> |s.channels[id].buffer| <= SUBSCRIBER_SIZE)
  }

  ghost predicate StoreOk(s: Store) {
    && (forall key :: key in s.journals ==> JournalOk(s.journals[key]))
    && (forall key :: key in s.active ==> key in s.journals && !s.journals[key].terminal)
    && SubscriptionsOk(s)
  }

  /** What a reader has received and still has on the way. */
  ghost function Coming(s: Store, r: Reader): seq<SessionEvent> {
    if r.stream.None? then r.delivered
    else
      var id := r.stream.value.channel;
      r.delivered + r.stream.value.backlog + if id in s.channels then s.channels[id].buffer else []
  }

  ghost predicate Block(events: seq<SessionEvent>, start: nat, part: seq<SessionEvent>) {
    start + |part| <= |events| && part == events[start..start + |part|]
  }

  /** Delivered and coming events form one block of the journal; a live subscriber misses nothing. */
  ghost predicate ReaderOk(s: Store, r: Reader) {
    && r.key in s.journals && r.from <= r.start
    && Block(s.journals[r.key].events, r.from, Coming(s, r))
    && (r.stream.Some? ==>
          var id := r.stream.value.channel;
          && id in s.channels
          && (forall key :: Registered(s, key, id) ==> key == r.key)
          && (Registered(s, r.key, id) ==> r.from + |Coming(s, r)| == |s.journals[r.key].events|))
  }

  ghost predicate ChannelsDistinct(s: State) {
    && (forall id :: id in s.store.channels ==> id < s.next)
    && (forall a, b :: a in s.readers && b in s.readers && a != b && s.readers[a].stream.Some? ==>
          s.readers[b].stream.None? || s.readers[a].stream.value.channel != s.readers[b].stream.value.channel)
  }

  ghost predicate Inv(s: State) {
    && StoreOk(s.store) && ChannelsDistinct(s)
    && forall r :: r in s.readers ==> ReaderOk(s.store, s.readers[r])
  }

  // ---- one step at a time ---------------------------------------------------

  /** Subscriptions may end, journals may grow: what stays registered stays sound. */
  lemma SubscriptionsKept(s: Store, t: Store)
    requires SubscriptionsOk(s)
    requires forall key, id :: Registered(t, key, id) ==>
               Registered(s, key, id) && key in t.journals && !t.journals[key].terminal && id in t.channels
                   && t.channels[id].open
    requires forall id :: id in t.channels ==> |t.channels[id].buffer| <= SUBSCRIBER_SIZE
    ensures SubscriptionsOk(t)
  {
    forall key, id | key in t.subscribers && id in t.subscribers[key] ensures id in t.channels {
      assert Registered(t, key, id);
    }
  }

  lemma BeginKeepsInv(s: State, e: Event)
    requires Inv(s) && e.Begun?
    ensures Inv(Step(s, e))
  {
    var t := Step(s, e);
    forall key, id | Registered(t.store, key, id)
      ensures Registered(s.store, key, id) && key in t.store.journals && !t.store.journals[key].terminal
      ensures t.store.channels[id].open
    {
      assert Registered(s.store, key, id);
    }
    SubscriptionsKept(s.store, t.store);
    forall r | r in t.readers ensures ReaderOk(t.store, t.readers[r]) {
      BegunReader(s, e, s.readers[r]);
    }
  }

  lemma BegunReader(s: State, e: Event, r: Reader)
    requires e.Begun? && ReaderOk(s.store, r)
    ensures ReaderOk(Step(s, e).store, r)
  {
    var t := Step(s, e);
    assert Coming(t.store, r) == Coming(s.store, r);
    assert forall key, id :: Registered(t.store, key, id) == Registered(s.store, key, id);
  }

  lemma {:induction false} AfterIsSuffix(events: seq<SessionEvent>, cursor: nat)
    requires forall i :: 0 <= i < |events| ==> events[i].sequence == i + 1
    ensures After(events, cursor) == if cursor <= |events| then events[cursor..] else []
  {
    if events != [] {
      var front, last := events[..|events| - 1], events[|events| - 1];
      AfterIsSuffix(front, cursor);
      if cursor <= |front| {
        assert events[cursor..] == front[cursor..] + [last];
      } else if cursor == |events| {
        assert events[cursor..] == [];
      }
    }
  }

  /** A broadcast keeps exactly the subscribers that had space, and ends them all on the last event. */
  lemma BroadcastRegistered(s: Store, key: string, e: SessionEvent, terminal: bool, k: string, id: nat)
    requires SubscriptionsOk(s) && Registered(Broadcast(s, key, e, terminal), k, id)
    ensures Registered(s, k, id) && Broadcast(s, key, e, terminal).channels[id].open
    ensures k == key ==> !terminal && HasSpace(s.channels[id])
  {
    if k != key && key in s.subscribers {
      assert Registered(s, k, id);
      assert !Registered(s, key, id);
    }
    assert Registered(s, k, id);
  }

  lemma AppendedJournal(s: Store, key: string, e: SessionEvent, api: Api, k: string)
    requires StoreOk(s) && k in s.journals
    ensures var t := Appended(s, key, e, api);
            && k in t.journals && JournalOk(t.journals[k]) && s.journals[k].events <= t.journals[k].events
            && (k in t.active ==> !t.journals[k].terminal)
            && (k != key ==> t.journals[k] == s.journals[k])
  {
  }

  lemma AppendedSubscriptions(s: Store, key: string, e: SessionEvent, api: Api)
    requires StoreOk(s)
    ensures SubscriptionsOk(Appended(s, key, e, api))
    ensures forall k, id :: Registered(Appended(s, key, e, api), k, id) ==> Registered(s, k, id)
  {
    var t := Appended(s, key, e, api);
    var next := AppendOutcome(s.journals, key, e, api);
    if next.Ok? {
      var m := s.(journals := s.journals[key := next.value]);
      BroadcastSubscriptions(s, m, key, e, next.value.terminal);
      var b := Broadcast(m, key, e, next.value.terminal);
      assert t == b.(active := t.active);
      assert forall k, id :: Registered(t, k, id) == Registered(b, k, id);
      SubscriptionsSame(b, t);
    }
  }

  lemma SubscriptionsSame(s: Store, t: Store)
    requires SubscriptionsOk(s) && t == s.(active := t.active)
    ensures SubscriptionsOk(t)
  {
    assert forall k, id :: Registered(t, k, id) == Registered(s, k, id);
  }

  lemma BroadcastSubscriptions(s: Store, m: Store, key: string, e: SessionEvent, terminal: bool)
    requires SubscriptionsOk(s) && m == s.(journals := m.journals)
    requires key in m.journals && m.journals[key].terminal == terminal
    requires forall k :: k in s.journals && k != key ==> k in m.journals && m.journals[k] == s.journals[k]
    ensures SubscriptionsOk(Broadcast(m, key, e, terminal))
    ensures forall k, id :: Registered(Broadcast(m, key, e, terminal), k, id) ==> Registered(s, k, id)
  {
    var b := Broadcast(m, key, e, terminal);
    var sb := Broadcast(s, key, e, terminal);
    forall k, id | Registered(b, k, id)
      ensures Registered(s, k, id) && k in b.journals && !b.journals[k].terminal && id in b.channels
      ensures b.channels[id].open
    {
      assert b.channels == sb.channels && b.subscribers == sb.subscribers;
      assert Registered(sb, k, id);
      BroadcastRegistered(s, key, e, terminal, k, id);
    }
    SubscriptionsKept(s, b);
  }

  /** A store change that leaves a reader's own channel and its registration alone. */
  lemma ReaderKept(s: Store, t: Store, r: Reader)
    requires ReaderOk(s, r) && r.key in t.journals && s.journals[r.key].events <= t.journals[r.key].events
    requires r.stream.Some? ==>
               var id := r.stream.value.channel;
               && id in t.channels && t.channels[id].buffer == s.channels[id].buffer
               && (forall k :: Registered(t, k, id) ==> Registered(s, k, id))
               && (Registered(t, r.key, id) ==> t.journals[r.key] == s.journals[r.key])
    ensures ReaderOk(t, r)
  {
    assert Coming(t, r) == Coming(s, r);
  }

  lemma AppendedToReader(s: Store, key: string, e: SessionEvent, api: Api, r: Reader)
    requires StoreOk(s) && ReaderOk(s, r) && r.key == key && r.stream.Some?
    requires AppendOutcome(s.journals, key, e, api).Ok?
    requires Registered(s, key, r.stream.value.channel) && HasSpace(s.channels[r.stream.value.channel])
    ensures ReaderOk(Appended(s, key, e, api), r)
  {
    var t := Appended(s, key, e, api);
    AppendedSubscriptions(s, key, e, api);
    AppendedJournal(s, key, e, api, key);
    assert t.journals[key].events == s.journals[key].events + [e];
    assert Coming(t, r) == Coming(s, r) + [e];
  }

  lemma AppendedReader(s: Store, key: string, e: SessionEvent, api: Api, r: Reader)
    requires StoreOk(s) && ReaderOk(s, r)
    ensures ReaderOk(Appended(s, key, e, api), r)
  {
    var t := Appended(s, key, e, api);
    AppendedSubscriptions(s, key, e, api);
    AppendedJournal(s, key, e, api, r.key);
    if r.stream.None? || AppendOutcome(s.journals, key, e, api).Err? {
      ReaderKept(s, t, r);
    } else if r.key == key && Registered(s, key, r.stream.value.channel)
        && HasSpace(s.channels[r.stream.value.channel]) {
      AppendedToReader(s, key, e, api, r);
    } else {
      AppendPasses(s, key, e, api, r);
      ReaderKept(s, t, r);
    }
  }

  /** A channel of another operation, a detached one and a full one are not written to. */
  lemma AppendPasses(s: Store, key: string, e: SessionEvent, api: Api, r: Reader)
    requires StoreOk(s) && ReaderOk(s, r) && r.stream.Some? && AppendOutcome(s.journals, key, e, api).Ok?
    requires !(r.key == key && Registered(s, key, r.stream.value.channel)
               && HasSpace(s.channels[r.stream.value.channel]))
    ensures var t := Appended(s, key, e, api);
            var id := r.stream.value.channel;
            && id in t.channels && t.channels[id].buffer == s.channels[id].buffer
            && (Registered(t, r.key, id) ==> r.key != key)
  {
    var id := r.stream.value.channel;
    assert Registered(s, key, id) ==> r.key == key;
  }

  lemma AppendKeepsInv(s: State, e: Event)
    requires Inv(s) && e.AppendTried?
    ensures Inv(Step(s, e))
  {
    var t := Step(s, e).store;
    forall k | k in t.journals
      ensures k in s.store.journals && JournalOk(t.journals[k]) && (k in t.active ==> !t.journals[k].terminal)
    {
      AppendedJournal(s.store, e.key, e.event, e.api, k);
    }
    AppendedSubscriptions(s.store, e.key, e.event, e.api);
    forall r | r in s.readers ensures ReaderOk(t, s.readers[r]) {
      AppendedReader(s.store, e.key, e.event, e.api, s.readers[r]);
    }
  }

  lemma SubscribeRegistered(s: Store, key: string, id: nat, k: string, i: nat)
    requires key in s.journals
    ensures Registered(Subscribed(s, key, id), k, i) <==>
            Registered(s, k, i) || (k == key && i == id && !s.journals[key].terminal)
  {
  }

  lemma SubscribeKeepsStore(s: Store, key: string, id: nat)
    requires StoreOk(s) && key in s.journals && id !in s.channels
    ensures StoreOk(Subscribed(s, key, id))
  {
    var t := Subscribed(s, key, id);
    forall k, i
      ensures Registered(t, k, i) <==> Registered(s, k, i) || (k == key && i == id && !s.journals[key].terminal)
    {
      SubscribeRegistered(s, key, id, k, i);
    }
    forall k, i | k in t.subscribers && i in t.subscribers[k] ensures i in t.channels {
      assert Registered(t, k, i);
    }
    forall k | Registered(s, k, id) ensures false {
    }
  }

  lemma SubscribedReader(s: Store, key: string, id: nat, r: Reader)
    requires StoreOk(s) && key in s.journals && id !in s.channels && ReaderOk(s, r)
    ensures ReaderOk(Subscribed(s, key, id), r)
  {
    if r.stream.Some? {
      forall k | Registered(Subscribed(s, key, id), k, r.stream.value.channel)
        ensures Registered(s, k, r.stream.value.channel)
      {
        SubscribeRegistered(s, key, id, k, r.stream.value.channel);
      }
    }
    ReaderKept(s, Subscribed(s, key, id), r);
  }

  lemma CursorIsPosition(s: Store, r: Reader)
    requires StoreOk(s) && ReaderOk(s, r)
    ensures r.delivered != [] ==> r.Cursor() == r.from + |r.delivered|
    ensures Block(s.journals[r.key].events, r.from, r.delivered)
  {
    var events := s.journals[r.key].events;
    assert r.delivered == Coming(s, r)[..|r.delivered|];
    if r.delivered != [] {
      assert r.delivered[|r.delivered| - 1] == events[r.from + |r.delivered| - 1];
    }
  }

  lemma NewSubscription(s: Store, id: nat, r: Reader)
    requires StoreOk(s) && ReaderOk(s, r) && r.stream.None? && id !in s.channels
    ensures ReaderOk(Subscribed(s, r.key, id), Subscribing(s.journals[r.key].events, r, id))
  {
    SubscriptionCompletes(s, id, r);
    forall k | Registered(Subscribed(s, r.key, id), k, id) ensures k == r.key {
      SubscribeRegistered(s, r.key, id, k, id);
    }
  }

  lemma SubscribeKeepsInv(s: State, e: Event)
    requires Inv(s) && Enabled(s, e) && e.SubscribedBy?
    ensures Inv(Step(s, e))
  {
    var t := Step(s, e);
    assert ReaderOk(s.store, s.readers[e.reader]);
    SubscribeKeepsStore(s.store, s.readers[e.reader].key, s.next);
    NewSubscription(s.store, s.next, s.readers[e.reader]);
    forall r | r in s.readers && r != e.reader ensures ReaderOk(t.store, t.readers[r]) {
      assert ReaderOk(s.store, s.readers[r]);
      SubscribedReader(s.store, s.readers[e.reader].key, s.next, s.readers[r]);
    }
    hide StoreOk, ReaderOk, Subscribed;
    SubscribeKeepsDistinct(s, e);
  }

  lemma SubscribeKeepsDistinct(s: State, e: Event)
    requires Inv(s) && Enabled(s, e) && e.SubscribedBy?
    ensures ChannelsDistinct(Step(s, e))
  {
    forall r | r in s.readers && s.readers[r].stream.Some? ensures s.readers[r].stream.value.channel < s.next {
      assert ReaderOk(s.store, s.readers[r]);
    }
  }

  /** Taking an event out of a channel. */
  ghost function Received(s: Store, id: nat): Store
    requires id in s.channels && s.channels[id].buffer != []
  {
    s.(channels := s.channels[id := s.channels[id].(buffer := s.channels[id].buffer[1..])])
  }

  lemma ReceiveKeepsStore(s: Store, id: nat)
    requires StoreOk(s) && id in s.channels && s.channels[id].buffer != []
    ensures StoreOk(Received(s, id))
    ensures forall k, i :: Registered(Received(s, id), k, i) <==> Registered(s, k, i)
  {
    var t := Received(s, id);
    assert forall k, i :: Registered(t, k, i) <==> Registered(s, k, i);
    SubscriptionsKept(s, t);
  }

  lemma DeliverBacklog(s: Store, r: Reader, t: Reader)
    requires ReaderOk(s, r) && r.stream.Some? && r.stream.value.backlog != []
    requires t == r.(delivered := r.delivered + [r.stream.value.backlog[0]],
                     stream := Some(r.stream.value.(backlog := r.stream.value.backlog[1..])))
    ensures Coming(s, t) == Coming(s, r) && ReaderOk(s, t)
  {
    assert Coming(s, t) == Coming(s, r);
  }

  lemma DeliverLive(s: Store, r: Reader, t: Reader)
    requires StoreOk(s) && ReaderOk(s, r) && r.stream.Some? && r.stream.value.backlog == []
    requires s.channels[r.stream.value.channel].buffer != []
    requires t == r.(delivered := r.delivered + [s.channels[r.stream.value.channel].buffer[0]])
    ensures Coming(Received(s, r.stream.value.channel), t) == Coming(s, r)
    ensures ReaderOk(Received(s, r.stream.value.channel), t)
  {
    ReceiveKeepsStore(s, r.stream.value.channel);
    assert Coming(Received(s, r.stream.value.channel), t) == Coming(s, r);
  }

  /** One reader moves; the store changes at most its own channel. */
  lemma OneReaderMoved(s: State, t: State, reader: nat)
    requires Inv(s) && reader in s.readers && s.readers[reader].stream.Some?
    requires reader in t.readers && t == s.(store := t.store, readers := s.readers[reader := t.readers[reader]])
    requires StoreOk(t.store) && t.store.journals == s.store.journals && t.store.channels.Keys == s.store.channels.Keys
    requires ReaderOk(t.store, t.readers[reader])
    requires t.readers[reader].stream.Some? ==>
               t.readers[reader].stream.value.channel == s.readers[reader].stream.value.channel
    requires forall id :: id in s.store.channels && id != s.readers[reader].stream.value.channel ==>
               t.store.channels[id].buffer == s.store.channels[id].buffer
    requires forall k, id :: Registered(t.store, k, id) ==> Registered(s.store, k, id)
    ensures Inv(t)
  {
    hide StoreOk, Coming;
    forall r | r in s.readers && r != reader ensures ReaderOk(t.store, t.readers[r]) {
      assert ReaderOk(s.store, s.readers[r]);
      ReaderKept(s.store, t.store, s.readers[r]);
    }
  }

  lemma DeliverKeepsInv(s: State, e: Event)
    requires Inv(s) && Enabled(s, e) && e.DeliveredTo?
    ensures Inv(Step(s, e))
  {
    var t := Deliver(s, e.reader);
    var r := s.readers[e.reader];
    assert ReaderOk(s.store, r);
    hide Inv, StoreOk, ReaderOk, Coming;
    if r.stream.value.backlog != [] {
      DeliverBacklog(s.store, r, t.readers[e.reader]);
    } else {
      DeliverLive(s.store, r, t.readers[e.reader]);
      ReceiveKeepsStore(s.store, r.stream.value.channel);
    }
    OneReaderMoved(s, t, e.reader);
  }

  lemma CancelRegistered(s: Store, key: string, id: nat, k: string, i: nat)
    requires ChannelsExist(s)
    ensures Registered(Cancelled(s, key, id), k, i) <==> Registered(s, k, i) && !(k == key && i == id)
  {
  }

  lemma CancelKeepsStore(s: Store, key: string, id: nat)
    requires StoreOk(s)
    ensures StoreOk(Cancelled(s, key, id))
    ensures forall k, i :: Registered(Cancelled(s, key, id), k, i) ==> Registered(s, k, i)
  {
    var t := Cancelled(s, key, id);
    forall k, i | Registered(t, k, i) ensures Registered(s, k, i) && t.channels[i].open {
      CancelRegistered(s, key, id, k, i);
      assert id == i ==> !Registered(s, key, i);
    }
    SubscriptionsKept(s, t);
  }

  lemma DetachKeepsInv(s: State, e: Event)
    requires Inv(s) && Enabled(s, e) && e.DetachedBy?
    ensures Inv(Step(s, e))
  {
    var t := Step(s, e);
    var d := s.readers[e.reader];
    assert ReaderOk(s.store, d);
    CancelKeepsStore(s.store, d.key, d.stream.value.channel);
    CursorIsPosition(s.store, d);
    assert ReaderOk(t.store, t.readers[e.reader]);
    hide Inv, StoreOk, ReaderOk, Coming;
    OneReaderMoved(s, t, e.reader);
  }

  lemma RestartKeepsInv(s: State)
    requires Inv(s)
    ensures Inv(Step(s, Restarted))
  {
    var t := Step(s, Restarted);
    forall r | r in t.readers ensures ReaderOk(t.store, t.readers[r]) {
      CursorIsPosition(s.store, s.readers[r]);
    }
  }

  lemma StepKeepsInv(s: State, e: Event)
    requires Inv(s) && Enabled(s, e)
    ensures Inv(Step(s, e))
  {
    match e
    case Begun(_, _, _) => BeginKeepsInv(s, e);
    case AppendTried(_, _, _) => AppendKeepsInv(s, e);
    case Joined(_, _, _) =>
    case SubscribedBy(_) => SubscribeKeepsInv(s, e);
    case DeliveredTo(_) => DeliverKeepsInv(s, e);
    case DetachedBy(_) => DetachKeepsInv(s, e);
    case Restarted => RestartKeepsInv(s);
  }

  lemma {:induction false} BehaviourKeepsInv(ss: seq<State>, es: seq<Event>, n: nat)
    requires Behaviour(ss, es) && n < |ss|
    ensures Inv(ss[n])
  {
    if n > 0 {
      BehaviourKeepsInv(ss, es, n - 1);
      assert Enabled(ss[n - 1], es[n - 1]) && ss[n - 1 + 1] == Step(ss[n - 1], es[n - 1]);
      StepKeepsInv(ss[n - 1], es[n - 1]);
    }
  }

  // ---- the theorems ---------------------------------------------------------

  /** Journals are never lost and only grow, until they are terminal. */
  lemma StepGrows(s: State, e: Event, key: string)
    requires Inv(s) && Enabled(s, e) && key in s.store.journals
    ensures key in Step(s, e).store.journals
    ensures s.store.journals[key].events <= Step(s, e).store.journals[key].events
    ensures s.store.journals[key].digest == Step(s, e).store.journals[key].digest
    ensures s.store.journals[key].terminal ==> Step(s, e).store.journals[key] == s.store.journals[key]
    ensures !Creates(s, e, key)
  {
    hide ReaderOk, SubscriptionsOk;
    if e.AppendTried? {
      AppendedJournal(s.store, e.key, e.event, e.api, key);
    }
  }

  lemma {:induction false} JournalGrows(ss: seq<State>, es: seq<Event>, i: nat, j: nat, key: string)
    requires Behaviour(ss, es) && i <= j < |ss| && key in ss[i].store.journals
    ensures key in ss[j].store.journals
    ensures ss[i].store.journals[key].events <= ss[j].store.journals[key].events
    ensures ss[i].store.journals[key].digest == ss[j].store.journals[key].digest
    ensures ss[i].store.journals[key].terminal ==> ss[j].store.journals[key] == ss[i].store.journals[key]
  {
    if i < j {
      JournalGrows(ss, es, i, j - 1, key);
      BehaviourKeepsInv(ss, es, j - 1);
      assert Enabled(ss[j - 1], es[j - 1]) && ss[j - 1 + 1] == Step(ss[j - 1], es[j - 1]);
      StepGrows(ss[j - 1], es[j - 1], key);
    }
  }

  /** At most one Begin of a key is told it created the operation, over all callers and restarts. */
  lemma AtMostOneCreated(ss: seq<State>, es: seq<Event>, i: nat, j: nat, key: string)
    requires Behaviour(ss, es) && i < |es| && j < |es|
    requires Creates(ss[i], es[i], key) && Creates(ss[j], es[j], key)
    ensures i == j
  {
    CreatedOnce(ss, es, i, j, key);
    CreatedOnce(ss, es, j, i, key);
  }

  lemma CreatedOnce(ss: seq<State>, es: seq<Event>, i: nat, j: nat, key: string)
    requires Behaviour(ss, es) && i < |es| && j < |es| && Creates(ss[i], es[i], key)
    ensures i < j ==> !Creates(ss[j], es[j], key)
  {
    if i < j {
      assert Enabled(ss[i], es[i]) && ss[i + 1] == Step(ss[i], es[i]);
      JournalGrows(ss, es, i + 1, j, key);
      BehaviourKeepsInv(ss, es, j);
      assert Enabled(ss[j], es[j]);
      StepGrows(ss[j], es[j], key);
    }
  }

  /** A journal is numbered 1..n with n at most 128, and ends with its only terminal event. */
  lemma JournalIsNumbered(ss: seq<State>, es: seq<Event>, n: nat, key: string)
    requires Behaviour(ss, es) && n < |ss| && key in ss[n].store.journals
    ensures var j := ss[n].store.journals[key];
            && |j.events| <= MAX_STORED_EVENTS
            && (forall i :: 0 <= i < |j.events| ==> j.events[i].sequence == i + 1)
            && (forall i :: 0 <= i < |j.events| ==> (j.events[i].Terminal() <==> j.terminal && i == |j.events| - 1))
            && (key in ss[n].store.active ==> !j.terminal)
  {
    BehaviourKeepsInv(ss, es, n);
  }

  /** What a reader was delivered, over all its subscriptions, is one block of the journal. */
  lemma ExactlyOnceReplay(ss: seq<State>, es: seq<Event>, n: nat, r: nat)
    requires Behaviour(ss, es) && n < |ss| && r in ss[n].readers
    ensures var x := ss[n].readers[r];
            && x.key in ss[n].store.journals
            && Block(ss[n].store.journals[x.key].events, x.from, x.delivered)
            && ((exists i :: 0 <= i < |x.delivered| && x.delivered[i].Terminal()) ==>
                  x.delivered == ss[n].store.journals[x.key].events[x.from..])
  {
    BehaviourKeepsInv(ss, es, n);
    var x := ss[n].readers[r];
    assert ReaderOk(ss[n].store, x);
    CursorIsPosition(ss[n].store, x);
    EndsWithTerminal(ss[n].store.journals[x.key], x.from, x.delivered);
    hide Inv, ReaderOk, JournalOk, StoreOk, Block;
  }

  lemma EndsWithTerminal(j: Journal, start: nat, part: seq<SessionEvent>)
    requires JournalOk(j) && Block(j.events, start, part)
    ensures start <= |j.events|
    ensures (exists i :: 0 <= i < |part| && part[i].Terminal()) ==> part == j.events[start..]
  {
    if i :| 0 <= i < |part| && part[i].Terminal() {
      assert j.events[start + i] == part[i];
      assert start + i == |j.events| - 1;
    }
  }

  /** The reader has, or has on the way, every event from where its deliveries begin. */
  ghost predicate Complete(s: Store, r: Reader) {
    && r.key in s.journals && r.from <= |s.journals[r.key].events|
    && Coming(s, r) == s.journals[r.key].events[r.from..]
  }

  /** A reader whose channel is still registered misses nothing. */
  lemma LiveReaderMissesNothing(ss: seq<State>, es: seq<Event>, n: nat, r: nat)
    requires Behaviour(ss, es) && n < |ss| && Streaming(ss[n], r)
    requires Registered(ss[n].store, ss[n].readers[r].key, ss[n].readers[r].stream.value.channel)
    ensures Complete(ss[n].store, ss[n].readers[r])
  {
    BehaviourKeepsInv(ss, es, n);
    assert ReaderOk(ss[n].store, ss[n].readers[r]);
  }

  /** However often a reader was detached, resuming puts everything it lacks on the way. */
  lemma ResumingCompletes(ss: seq<State>, es: seq<Event>, n: nat, r: nat)
    requires Behaviour(ss, es) && n < |es| && es[n] == SubscribedBy(r)
    ensures r in ss[n + 1].readers && Complete(ss[n + 1].store, ss[n + 1].readers[r])
  {
    BehaviourKeepsInv(ss, es, n);
    assert Enabled(ss[n], es[n]) && ss[n + 1] == Step(ss[n], es[n]);
    assert ReaderOk(ss[n].store, ss[n].readers[r]);
    assert ss[n].next !in ss[n].store.channels;
    hide ReaderOk, StoreOk, Complete;
    SubscriptionCompletes(ss[n].store, ss[n].next, ss[n].readers[r]);
  }

  lemma SubscriptionCompletes(s: Store, id: nat, r: Reader)
    requires StoreOk(s) && ReaderOk(s, r) && r.stream.None? && id !in s.channels
    ensures Complete(Subscribed(s, r.key, id), Subscribing(s.journals[r.key].events, r, id))
  {
    CursorIsPosition(s, r);
    BacklogCompletes(s.journals[r.key].events, r, id);
    hide StoreOk, ReaderOk, Block, After;
  }

  lemma BacklogCompletes(events: seq<SessionEvent>, r: Reader, id: nat)
    requires forall i :: 0 <= i < |events| ==> events[i].sequence == i + 1
    requires Block(events, r.from, r.delivered) && (r.delivered != [] ==> r.Cursor() == r.from + |r.delivered|)
    ensures var t := Subscribing(events, r, id);
            t.from <= |events| && t.delivered + t.stream.value.backlog + [] == events[t.from..]
  {
    AfterIsSuffix(events, r.Cursor());
    hide After;
    if r.delivered != [] {
      assert events[r.from..] == r.delivered + events[r.Cursor()..];
    }
  }

  // ---- what a cursor promises -----------------------------------------------

  /** The place where the deliveries begin is settled. */
  ghost predicate Pinned(r: Reader) {
    r.delivered != [] || r.from == r.start
  }

  lemma ReaderStep(s: State, e: Event, r: nat)
    requires Inv(s) && Enabled(s, e) && r in s.readers
    ensures r in Step(s, e).readers
    ensures var x, y := s.readers[r], Step(s, e).readers[r];
            && y.key == x.key && y.start == x.start && x.delivered <= y.delivered && x.from <= y.from
            && (Pinned(x) ==> Pinned(y) && y.from == x.from)
  {
    hide Inv, Appended, Subscribed, Cancelled, After;
    ReaderStarts(s, r);
  }

  lemma ReaderStarts(s: State, r: nat)
    requires Inv(s) && r in s.readers
    ensures var x := s.readers[r];
            x.key in s.store.journals && x.from <= x.start && x.from <= |s.store.journals[x.key].events|
  {
    assert ReaderOk(s.store, s.readers[r]);
    hide StoreOk, ChannelsDistinct;
  }

  lemma {:induction false} ReaderKeeps(ss: seq<State>, es: seq<Event>, i: nat, j: nat, r: nat)
    requires Behaviour(ss, es) && i <= j < |ss| && r in ss[i].readers
    ensures r in ss[j].readers
    ensures var x, y := ss[i].readers[r], ss[j].readers[r];
            && y.key == x.key && y.start == x.start && x.delivered <= y.delivered && x.from <= y.from
            && (Pinned(x) ==> Pinned(y) && y.from == x.from)
  {
    hide Inv, Enabled, Step;
    if i < j {
      ReaderKeeps(ss, es, i, j - 1, r);
      BehaviourKeepsInv(ss, es, j - 1);
      assert Enabled(ss[j - 1], es[j - 1]) && ss[j - 1 + 1] == Step(ss[j - 1], es[j - 1]);
      ReaderStep(ss[j - 1], es[j - 1], r);
    }
  }

  /** A reader that joined with a cursor inside the journal gets the events right after that cursor. */
  lemma DeliveriesFollowCursor(ss: seq<State>, es: seq<Event>, i: nat, n: nat, r: nat, key: string, start: nat)
    requires Behaviour(ss, es) && i < |es| && es[i] == Joined(r, key, start) && i < n < |ss|
    requires key in ss[i].store.journals && start <= |ss[i].store.journals[key].events|
    ensures r in ss[n].readers && ss[n].readers[r].key == key && ss[n].readers[r].from == start
  {
    assert Enabled(ss[i], es[i]) && ss[i + 1] == Step(ss[i], es[i]);
    ReaderKeeps(ss, es, i + 1, n, r);
  }

  /** All but the first d deliveries have sequences above the cursor. */
  ghost predicate Above(s: State, r: nat, d: nat, cursor: int) {
    && r in s.readers && d <= |s.readers[r].delivered|
    && forall k :: d <= k < |s.readers[r].delivered| ==> s.readers[r].delivered[k].sequence > cursor
  }

  /** Every way the run can go on delivers only events above the cursor. */
  ghost predicate CursorHolds(ss: seq<State>, es: seq<Event>, r: nat, d: nat, cursor: int) {
    forall ss': seq<State>, es': seq<Event>, n ::
      Behaviour(ss', es') && ss <= ss' && es <= es' && |es| <= n < |ss'| ==> Above(ss'[n], r, d, cursor)
  }

  /**
    * A subscription delivers only events above its cursor, however the run goes on, exactly when the
    * cursor does not point past the journal, or nothing can be appended to the journal any more.
    */
  lemma CursorHoldsIff(ss: seq<State>, es: seq<Event>, r: nat)
    requires Behaviour(ss, es) && es != [] && es[|es| - 1] == SubscribedBy(r) && r in ss[|es| - 1].readers
    requires ss[|es| - 1].readers[r].key in ss[|es| - 1].store.journals
    ensures var x := ss[|es| - 1].readers[r];
            var j := ss[|es| - 1].store.journals[x.key];
            CursorHolds(ss, es, r, |x.delivered|, x.Cursor()) <==>
              x.Cursor() <= |j.events| || j.terminal || |j.events| == MAX_STORED_EVENTS
  {
    var x := ss[|es| - 1].readers[r];
    var j := ss[|es| - 1].store.journals[x.key];
    BehaviourKeepsInv(ss, es, |es| - 1);
    assert ReaderOk(ss[|es| - 1].store, x);
    CursorIsPosition(ss[|es| - 1].store, x);
    if x.Cursor() <= |j.events| || j.terminal || |j.events| == MAX_STORED_EVENTS {
      forall ss': seq<State>, es': seq<Event>, n |
        Behaviour(ss', es') && ss <= ss' && es <= es' && |es| <= n < |ss'|
        ensures Above(ss'[n], r, |x.delivered|, x.Cursor())
      {
        SubscribedAbove(ss', es', |es| - 1, n, r);
      }
    } else {
      PastEndDelivers(ss, es, r);
    }
  }

  lemma SubscribedAbove(ss: seq<State>, es: seq<Event>, i: nat, n: nat, r: nat)
    requires Behaviour(ss, es) && i < |es| && es[i] == SubscribedBy(r) && i < n < |ss| && r in ss[i].readers
    requires ss[i].readers[r].key in ss[i].store.journals
    requires var j := ss[i].store.journals[ss[i].readers[r].key];
             ss[i].readers[r].Cursor() <= |j.events| || j.terminal || |j.events| == MAX_STORED_EVENTS
    ensures Above(ss[n], r, |ss[i].readers[r].delivered|, ss[i].readers[r].Cursor())
  {
    var x, y := ss[i].readers[r], ss[i + 1].readers[r];
    assert Enabled(ss[i], es[i]) && ss[i + 1] == Step(ss[i], es[i]);
    BehaviourKeepsInv(ss, es, i);
    BehaviourKeepsInv(ss, es, n);
    ReaderKeeps(ss, es, i + 1, n, r);
    JournalGrows(ss, es, i, n, x.key);
    assert ReaderOk(ss[i].store, x) && ReaderOk(ss[n].store, ss[n].readers[r]);
    CursorIsPosition(ss[i].store, x);
    CursorIsPosition(ss[n].store, ss[n].readers[r]);
    hide Inv, ReaderOk, Enabled, Step, After;
    if x.Cursor() <= |ss[i].store.journals[x.key].events| {
      AboveInBlock(ss[n].store.journals[x.key], x.Cursor(), |x.delivered|, ss[n].readers[r]);
    } else {
      NothingLeft(ss[i].store.journals[x.key], ss[n].store.journals[x.key], ss[n].readers[r]);
    }
  }

  lemma AboveInBlock(j: Journal, cursor: int, d: nat, y: Reader)
    requires JournalOk(j) && Block(j.events, y.from, y.delivered) && cursor == y.from + d && d <= |y.delivered|
    ensures forall k :: d <= k < |y.delivered| ==> y.delivered[k].sequence > cursor
  {
    forall k | d <= k < |y.delivered| ensures y.delivered[k].sequence > cursor {
      assert y.delivered[k] == j.events[y.from + k];
    }
  }

  lemma NothingLeft(j: Journal, later: Journal, y: Reader)
    requires JournalOk(j) && JournalOk(later) && j.events <= later.events && Block(later.events, y.from, y.delivered)
    requires (j.terminal && later == j) || |j.events| == MAX_STORED_EVENTS
    requires y.from >= |j.events|
    ensures y.delivered == []
  {
  }

  /** With a cursor past an open journal, one more event is delivered below the cursor. */
  lemma PastEndDelivers(ss: seq<State>, es: seq<Event>, r: nat)
    requires Behaviour(ss, es) && es != [] && es[|es| - 1] == SubscribedBy(r) && r in ss[|es| - 1].readers
    requires ss[|es| - 1].readers[r].key in ss[|es| - 1].store.journals
    requires var x := ss[|es| - 1].readers[r];
             var j := ss[|es| - 1].store.journals[x.key];
             x.Cursor() > |j.events| && !j.terminal && |j.events| < MAX_STORED_EVENTS
    ensures var x := ss[|es| - 1].readers[r];
            !CursorHolds(ss, es, r, |x.delivered|, x.Cursor())
  {
    var s, t := ss[|es| - 1], ss[|es|];
    var x := s.readers[r];
    BehaviourKeepsInv(ss, es, |es| - 1);
    BehaviourKeepsInv(ss, es, |es|);
    assert Enabled(s, es[|es| - 1]) && ss[|es| - 1 + 1] == Step(s, es[|es| - 1]);
    PastEndSubscribed(s, r);
    var e1 := NextProgress(s, x.key);
    var t2 := OpenChannelDelivers(t, r, e1);
    assert !Above(t2, r, |x.delivered|, x.Cursor()) by {
      assert t2.readers[r].delivered[0] == e1.event;
    }
    hide *;
    TwoMore(ss, es, e1, DeliveredTo(r), r, |x.delivered|, x.Cursor());
  }

  lemma TwoMore(ss: seq<State>, es: seq<Event>, a: Event, b: Event, r: nat, d: nat, cursor: int)
    requires Behaviour(ss, es) && Enabled(ss[|es|], a) && Enabled(Step(ss[|es|], a), b)
    requires !Above(Step(Step(ss[|es|], a), b), r, d, cursor)
    ensures !CursorHolds(ss, es, r, d, cursor)
  {
    hide Enabled, Step, Above;
    Extends(ss, es, a);
    Extends(ss + [Step(ss[|es|], a)], es + [a], b);
    var ss', es' := ss + [Step(ss[|es|], a)] + [Step(Step(ss[|es|], a), b)], es + [a] + [b];
    assert ss'[|es| + 2] == Step(Step(ss[|es|], a), b);
    assert ss <= ss' && es <= es';
  }

  /** One more event for the journal, well formed and stored. */
  ghost function NextProgress(s: State, key: string): (e: Event)
    requires key in s.store.journals
    ensures e.AppendTried? && e.key == key && e.event.sequence == |s.store.journals[key].events| + 1
  {
    AppendTried(key, SessionEvent(|s.store.journals[key].events| + 1, Progress, ""), Api(true, true, _ => 0))
  }

  lemma PastEndSubscribed(s: State, r: nat)
    requires Inv(s) && Enabled(s, SubscribedBy(r))
    requires var x := s.readers[r];
             var j := s.store.journals[x.key];
             x.Cursor() > |j.events| && !j.terminal && |j.events| < MAX_STORED_EVENTS
    ensures var t := Step(s, SubscribedBy(r));
            var x := s.readers[r];
            var e := NextProgress(s, x.key);
            && x.delivered == [] && Streaming(t, r) && t.readers[r].delivered == []
            && t.readers[r].stream.value.backlog == [] && Live(t, r).buffer == []
            && Registered(t.store, x.key, t.readers[r].stream.value.channel) && Enabled(t, e)
            && AppendOutcome(t.store.journals, e.key, e.event, e.api).Ok?
  {
    var x := s.readers[r];
    assert ReaderOk(s.store, x);
    PastEndBacklog(s.store, x);
    NextProgressFits(s, x.key);
    SubscribeKeepsInv(s, SubscribedBy(r));
    SubscribeRegistered(s.store, x.key, s.next, x.key, s.next);
    hide ReaderOk, JournalOk, AppendOutcome, After, Registered, NextProgress;
  }

  lemma PastEndBacklog(s: Store, x: Reader)
    requires StoreOk(s) && ReaderOk(s, x) && x.Cursor() > |s.journals[x.key].events|
    ensures x.delivered == [] && After(s.journals[x.key].events, x.Cursor()) == []
  {
    CursorIsPosition(s, x);
    AfterIsSuffix(s.journals[x.key].events, x.start);
  }

  lemma NextProgressFits(s: State, key: string)
    requires key in s.store.journals && !s.store.journals[key].terminal
    requires |s.store.journals[key].events| < MAX_STORED_EVENTS
    ensures var e := NextProgress(s, key); AppendOutcome(s.store.journals, key, e.event, e.api).Ok?
  {
  }

  lemma OpenChannelDelivers(t: State, r: nat, e: Event) returns (u: State)
    requires Inv(t) && e.AppendTried? && Streaming(t, r)
    requires t.readers[r].stream.value.backlog == [] && Live(t, r).buffer == []
    requires Registered(t.store, e.key, t.readers[r].stream.value.channel)
    requires AppendOutcome(t.store.journals, e.key, e.event, e.api).Ok?
    ensures Enabled(Step(t, e), DeliveredTo(r)) && u == Step(Step(t, e), DeliveredTo(r))
    ensures r in u.readers && u.readers[r].delivered == t.readers[r].delivered + [e.event]
  {
    var id := t.readers[r].stream.value.channel;
    assert Step(t, e).store.channels[id].buffer == [e.event];
    u := Step(Step(t, e), DeliveredTo(r));
  }

  lemma Extends(ss: seq<State>, es: seq<Event>, e: Event)
    requires Behaviour(ss, es) && Enabled(ss[|es|], e)
    ensures Behaviour(ss + [Step(ss[|es|], e)], es + [e])
  {
  }

  /** A reader that asks for events after the first of an empty journal is delivered that first event. */
  lemma PastEndRun(key: string, digest: string) returns (ss: seq<State>, es: seq<Event>)
    requires key != "" && digest != ""
    ensures Behaviour(ss, es) && es == [Begun(key, digest, Api(true, true, _ => 0)), Joined(0, key, 1), SubscribedBy(0)]
    ensures !CursorHolds(ss, es, 0, 0, 1)
  {
    var begin := Begun(key, digest, Api(true, true, _ => 0));
    var s0 := State(Store(map[], {}, map[], map[]), 0, map[]);
    var s1 := State(Store(map[key := Journal(digest, false, [])], {key}, map[], map[]), 0, map[]);
    var s2 := s1.(readers := map[0 := Reader(key, 1, 0, [], None)]);
    assert Step(s0, begin) == s1;
    assert Step(s1, Joined(0, key, 1)) == s2;
    Extends([s0], [], begin);
    Extends([s0] + [s1], [] + [begin], Joined(0, key, 1));
    ss, es := [s0] + [s1] + [s2], [] + [begin] + [Joined(0, key, 1)];
    Extends(ss, es, SubscribedBy(0));
    ss, es := ss + [Step(s2, SubscribedBy(0))], es + [SubscribedBy(0)];
    assert ss[|es| - 1] == s2;
    hide Step, Enabled, Behaviour, CursorHolds;
    CursorHoldsIff(ss, es, 0);
  }
}
