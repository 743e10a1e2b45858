/** The retained event journal of Session operations and its live subscribers. */
module SessionJournal {

  datatype EventKind = Accepted | Progress | Output | Completed | Failed

  /** value stands for the marshalled event. */
  datatype SessionEvent = SessionEvent(sequence: int, kind: EventKind, value: string) {
    predicate Terminal() {
      kind.Completed? || kind.Failed?
    }
  }

  const MAX_STORED_EVENTS := 128
  const MAX_STORED_EVENT_BYTES := 8 * 1024
  const MAX_JOURNAL_BYTES := 768 * 1024
  const SUBSCRIBER_SIZE := 16

  datatype Journal = Journal(digest: string, terminal: bool, events: seq<SessionEvent>)

  /** A bounded live channel as its sender and receiver see it. */
  datatype Channel = Channel(buffer: seq<SessionEvent>, open: bool)

  datatype Error =
    | InvalidArgument | AlreadyExists | Unavailable | NotFound | ResourceExhausted | FailedPrecondition | Internal

  datatype Result<T> = Ok(value: T) | Err(error: Error)

  /** Journals are durable; the rest lives in one runtimed process. */
  datatype Store = Store(
    journals: map<string, Journal>,
    active: set<string>,
    subscribers: map<string, set<nat>>,
    channels: map<nat, Channel>)

  /** Whether the API server answers a read and a write, and how long the encoded journal is. */
  datatype Api = Api(readable: bool, writable: bool, bytes: Journal -> nat)

  // ---- specification --------------------------------------------------------

  function AppendEvent(j: Journal, e: SessionEvent): Result<Journal> {
    if j.terminal then Err(FailedPrecondition)
    else if |j.events| >= MAX_STORED_EVENTS then Err(ResourceExhausted)
    else if e.sequence != |j.events| + 1 then Err(Internal)
    else Ok(Journal(j.digest, e.Terminal(), j.events + [e]))
  }

  /** Retained events with a sequence above the cursor, in order. */
  ghost function After(events: seq<SessionEvent>, cursor: int): seq<SessionEvent> {
    if events == [] then []
    else
      var last := events[|events| - 1];
      After(events[..|events| - 1], cursor) + if last.sequence <= cursor then [] else [last]
  }

  ghost function SubscribersOf(s: Store, key: string): set<nat> {
    if key in s.subscribers then s.subscribers[key] else {}
  }

  predicate HasSpace(c: Channel) {
    |c.buffer| < SUBSCRIBER_SIZE
  }

  /** A channel after one broadcast: a full one is closed as it stands. */
  function Offered(c: Channel, e: SessionEvent, terminal: bool): Channel {
    if HasSpace(c) then Channel(c.buffer + [e], c.open && !terminal) else c.(open := false)
  }

  /** The subscribers with space left for one more event. */
  ghost function Keeping(subscribers: set<nat>, channels: map<nat, Channel>): set<nat> {
    set id | id in subscribers && id in channels && HasSpace(channels[id])
  }

  ghost predicate ChannelsExist(s: Store) {
    forall key, id :: key in s.subscribers && id in s.subscribers[key] ==> id in s.channels
  }

  ghost function Broadcast(s: Store, key: string, e: SessionEvent, terminal: bool): Store
    requires ChannelsExist(s)
  {
    if key !in s.subscribers then s
    else
      s.(channels := map id | id in s.channels ::
                       if id in s.subscribers[key] then Offered(s.channels[id], e, terminal) else s.channels[id],
         subscribers := s.subscribers[key := if terminal then {} else Keeping(s.subscribers[key], s.channels)])
  }

  /** The journal Append would store, or why it stores nothing. */
  function AppendOutcome(journals: map<string, Journal>, key: string, e: SessionEvent, api: Api): Result<Journal> {
    if e.sequence <= 0 then Err(InvalidArgument)
    else if |e.value| > MAX_STORED_EVENT_BYTES then Err(ResourceExhausted)
    else if !api.readable then Err(Unavailable)
    else if key !in journals then Err(NotFound)
    else Persist(journals[key], e, api)
  }

  function Persist(j: Journal, e: SessionEvent, api: Api): Result<Journal> {
    var next := AppendEvent(j, e);
    if next.Err? then next
    else if api.bytes(next.value) > MAX_JOURNAL_BYTES then Err(ResourceExhausted)
    else if !api.writable then Err(Unavailable)
    else next
  }

  ghost function Appended(s: Store, key: string, e: SessionEvent, api: Api): Store
    requires ChannelsExist(s)
  {
    var next := AppendOutcome(s.journals, key, e, api);
    if next.Err? then s
    else
      var t := Broadcast(s.(journals := s.journals[key := next.value]), key, e, next.value.terminal);
      t.(active := if next.value.terminal then t.active - {key} else t.active)
  }

  /** Whether Begin creates the journal. */
  function BeginOutcome(journals: map<string, Journal>, key: string, digest: string, api: Api): Result<bool> {
    if key == "" || digest == "" then Err(InvalidArgument)
    else if !api.readable then Err(Unavailable)
    else if key in journals then (if journals[key].digest != digest then Err(AlreadyExists) else Ok(false))
    else if !api.writable then Err(Unavailable)
    else Ok(true)
  }

  ghost function Subscribed(s: Store, key: string, id: nat): Store
    requires key in s.journals
  {
    if s.journals[key].terminal then s.(channels := s.channels[id := Channel([], false)])
    else
      s.(channels := s.channels[id := Channel([], true)],
         subscribers := s.subscribers[key := SubscribersOf(s, key) + {id}])
  }

  ghost function Cancelled(s: Store, key: string, id: nat): Store {
    if id in SubscribersOf(s, key) && id in s.channels then
      s.(subscribers := s.subscribers[key := s.subscribers[key] - {id}],
         channels := s.channels[id := s.channels[id].(open := false)])
    else s
  }

  // ---- the store ------------------------------------------------------------

  method EventsAfter(record: Journal, cursor: int) returns (events: seq<SessionEvent>)
    ensures events == After(record.events, cursor)
  {
    events := [];
    for i := 0 to |record.events|
      invariant events == After(record.events[..i], cursor)
    {
      assert record.events[..i + 1][..i] == record.events[..i];
      if record.events[i].sequence > cursor {
        events := events + [record.events[i]];
      }
    }
    assert record.events[..|record.events|] == record.events;
  }

  class SessionOperationStore {
    var journals: map<string, Journal>
    var active: set<string>
    var subscribers: map<string, set<nat>>
    var channels: map<nat, Channel>

    ghost function State(): Store
      reads this
    {
      Store(journals, active, subscribers, channels)
    }

    /** A restarted process keeps the journals and nothing else. */
    constructor (durable: map<string, Journal>)
      ensures State() == Store(durable, {}, map[], map[])
    {
      journals, active, subscribers, channels := durable, {}, map[], map[];
    }

    /** found is what the first read says: a journal created meanwhile is caught by the create itself. */
    method Begin(key: string, digest: string, api: Api, found: bool) returns (r: Result<bool>)
      requires found ==> key in journals
      modifies this
      ensures r == BeginOutcome(old(journals), key, digest, api)
      ensures r == Ok(true) ==>
                State() == old(State()).(journals := old(journals)[key := Journal(digest, false, [])],
                    active := old(active) + {key})
      ensures r != Ok(true) ==> State() == old(State())
    {
      if key == "" || digest == "" {
        return Err(InvalidArgument);
      }
      if !api.readable {
        return Err(Unavailable);
      }
      if found {
        if journals[key].digest != digest {
          return Err(AlreadyExists);
        }
        return Ok(false);
      }
      if key in journals {
        r := BeginExisting(key, digest);
        return;
      }
      if !api.writable {
        return Err(Unavailable);
      }
      journals := journals[key := Journal(digest, false, [])];
      active := active + {key};
      return Ok(true);
    }

    method BeginExisting(key: string, digest: string) returns (r: Result<bool>)
      requires key in journals
      ensures r == if journals[key].digest != digest then Err(AlreadyExists) else Ok(false)
    {
      if journals[key].digest != digest {
        return Err(AlreadyExists);
      }
      return Ok(false);
    }

    /** Persists one event, then offers it to the live subscribers. */
    method Append(key: string, e: SessionEvent, api: Api) returns (r: Result<Journal>)
      requires ChannelsExist(State())
      modifies this
      ensures r == AppendOutcome(old(journals), key, e, api)
      ensures State() == Appended(old(State()), key, e, api)
    {
      if e.sequence <= 0 {
        return Err(InvalidArgument);
      }
      if |e.value| > MAX_STORED_EVENT_BYTES {
        return Err(ResourceExhausted);
      }
      if !api.readable {
        return Err(Unavailable);
      }
      if key !in journals {
        return Err(NotFound);
      }
      r := AppendEvent(journals[key], e);
      if r.Err? {
        return;
      }
      if api.bytes(r.value) > MAX_JOURNAL_BYTES {
        return Err(ResourceExhausted);
      }
      if !api.writable {
        return Err(Unavailable);
      }
      journals := journals[key := r.value];
      BroadcastLocked(key, e, r.value.terminal);
      if r.value.terminal {
        active := active - {key};
      }
    }

    method BroadcastLocked(key: string, e: SessionEvent, terminal: bool)
      requires ChannelsExist(State())
      modifies this
      ensures State() == Broadcast(old(State()), key, e, terminal)
    {
      if key !in subscribers {
        return;
      }
      SendOrDetach(key, e);
      ghost var target := Broadcast(old(State()), key, e, terminal);
      if !terminal {
        assert channels == target.channels;
        return;
      }
      CloseAll(key);
      assert channels == target.channels;
    }

    /** Sends without blocking; a subscriber that has no space left is detached and closed. */
    method SendOrDetach(key: string, e: SessionEvent)
      requires key in subscribers && forall id :: id in subscribers[key] ==> id in channels
      modifies this
      ensures journals == old(journals) && active == old(active)
      ensures subscribers == old(subscribers)[key := Keeping(old(subscribers)[key], old(channels))]
      ensures channels == map id | id in old(channels) ::
                            if id in old(subscribers)[key] then Offered(old(channels)[id], e, false)
                                else old(channels)[id]
    {
      var rest := subscribers[key];
      while rest != {}
        invariant rest <= old(subscribers)[key] && journals == old(journals) && active == old(active)
        invariant key in subscribers
        invariant subscribers == old(subscribers)[key := subscribers[key]]
        invariant subscribers[key]
               == set id | id in old(subscribers)[key] && (id in rest || HasSpace(old(channels)[id]))
        invariant channels == map id | id in old(channels) ::
                                if id in old(subscribers)[key] && id !in rest then Offered(old(channels)[id], e, false)
                                    else old(channels)[id]
      {
        var id :| id in rest;
        rest := rest - {id};
        if HasSpace(channels[id]) {
          channels := channels[id := channels[id].(buffer := channels[id].buffer + [e])];
        } else {
          subscribers := subscribers[key := subscribers[key] - {id}];
          channels := channels[id := channels[id].(open := false)];
        }
      }
      assert subscribers[key] == Keeping(old(subscribers)[key], old(channels));
    }

    method CloseAll(key: string)
      requires key in subscribers && forall id :: id in subscribers[key] ==> id in channels
      modifies this
      ensures journals == old(journals) && active == old(active)
      ensures subscribers == old(subscribers)[key := {}]
      ensures channels == map id | id in old(channels) ::
                            if id in old(subscribers)[key] then old(channels)[id].(open := false) else old(channels)[id]
    {
      var rest := subscribers[key];
      while rest != {}
        invariant rest <= old(subscribers)[key] && journals == old(journals) && active == old(active)
        invariant subscribers == old(subscribers)[key := rest]
        invariant channels == map id | id in old(channels) ::
                                if id in old(subscribers)[key] && id !in rest then old(channels)[id].(open := false)
                                    else old(channels)[id]
      {
        var id :| id in rest;
        rest := rest - {id};
        subscribers := subscribers[key := rest];
        channels := channels[id := channels[id].(open := false)];
      }
    }

    /** The retained events after the cursor and a live channel, closed already for a terminal journal. */
    method Subscribe(key: string, cursor: int, id: nat, api: Api) returns (r: Result<seq<SessionEvent>>)
      requires id !in channels
      modifies this
      ensures cursor < 0 ==> r == Err(InvalidArgument)
      ensures cursor >= 0 && !api.readable ==> r == Err(Unavailable)
      ensures cursor >= 0 && api.readable && key !in old(journals) ==> r == Err(NotFound)
      ensures cursor >= 0 && api.readable && key in old(journals) ==>
                r == Ok(After(old(journals)[key].events, cursor)) && State() == Subscribed(old(State()), key, id)
      ensures r.Err? ==> State() == old(State())
    {
      if cursor < 0 {
        return Err(InvalidArgument);
      }
      if !api.readable {
        return Err(Unavailable);
      }
      if key !in journals {
        return Err(NotFound);
      }
      var record := journals[key];
      var events := EventsAfter(record, cursor);
      r := Ok(events);
      if record.terminal {
        channels := channels[id := Channel([], false)];
        return;
      }
      channels := channels[id := Channel([], true)];
      if key !in subscribers {
        subscribers := subscribers[key := {}];
      }
      subscribers := subscribers[key := subscribers[key] + {id}];
      assert subscribers == old(subscribers)[key := SubscribersOf(old(State()), key) + {id}];
    }

    method Cancel(key: string, id: nat)
      modifies this
      ensures State() == Cancelled(old(State()), key, id)
    {
      if key in subscribers && id in subscribers[key] && id in channels {
        subscribers := subscribers[key := subscribers[key] - {id}];
        channels := channels[id := channels[id].(open := false)];
      }
    }
  }
}
