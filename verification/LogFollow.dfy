/** Following a Run's log records across reconnects, against the record sequence itself. */
module LogFollow {
  import opened Common

  /** One structured log record with the timestamp the container log gave its line. */
  datatype Record = Record(
    timestamp: string,
    stream: string,
    message: string,
    invocationID: string,
    operation: string,
    outcome: string,
    statusCode: string,
    exitCode: Option<int>,
    timedOut: bool,
    durationMilliseconds: int)

  /** The hash in a cursor is taken to identify the record. */
  datatype LogCursor = LogCursor(uid: string, index: nat, record: Record)

  datatype Item = Item(record: Record, cursor: LogCursor)

  /** The records as the server numbers them. */
  ghost function Items(uid: string, records: seq<Record>): seq<Item> {
    seq(|records|, i requires 0 <= i < |records| => Item(records[i], LogCursor(uid, i + 1, records[i])))
  }

  ghost predicate Retained(items: seq<Item>, c: LogCursor) {
    exists i :: 0 <= i < |items| && items[i].cursor == c
  }

  /** What follows the first item with the cursor. */
  ghost function AfterCursor(items: seq<Item>, c: LogCursor): seq<Item> {
    if items == [] then []
    else if items[0].cursor == c then items[1..]
    else AfterCursor(items[1..], c)
  }

  /** Where the last tail of n entries begin. */
  ghost function TailStart(n: nat, tail: nat): (start: nat)
    ensures start <= n && n - start <= tail && (start > 0 ==> n - start == tail)
  {
    if n <= tail then 0 else n - tail
  }

  /** What one follow request sends, or None when its cursor is no longer retained. */
  ghost function Response(
      snapshot: seq<Item>, followed: seq<Item>, tail: nat, requested: Option<LogCursor>): Option<seq<Item>> {
    if requested.Some? then
      if Retained(snapshot, requested.value) then Some(AfterCursor(followed, requested.value)) else None
    else if snapshot == [] then Some(followed)
    else Some(snapshot[TailStart(|snapshot|, tail)..] + AfterCursor(followed, snapshot[|snapshot| - 1].cursor))
  }

  // ---- the server -----------------------------------------------------------

  method Snapshot(uid: string, records: seq<Record>) returns (entries: seq<Item>)
    ensures entries == Items(uid, records)
  {
    entries := [];
    var index := 0;
    for i := 0 to |records|
      invariant index == i && entries == Items(uid, records[..i])
    {
      index := index + 1;
      entries := entries + [Item(records[i], LogCursor(uid, index, records[i]))];
    }
    assert records[..|records|] == records;
  }

  /** followed is what the follow request reads until it ends. */
  method Stream(uid: string, snapshot: seq<Item>, tail: nat, requested: Option<LogCursor>, followed: seq<Record>)
    returns (sent: Option<seq<Item>>)
    ensures sent == Response(snapshot, Items(uid, followed), tail, requested)
  {
    var items: seq<Item> := [];
    var last: Option<LogCursor> := None;
    if requested.Some? {
      var found := false;
      for i := 0 to |snapshot|
        invariant !found && forall k :: 0 <= k < i ==> snapshot[k].cursor != requested.value
      {
        if snapshot[i].cursor == requested.value {
          found := true;
          break;
        }
      }
      if !found {
        return None;
      }
      last := requested;
    } else if |snapshot| > 0 {
      var start := if |snapshot| <= tail then 0 else |snapshot| - tail;
      items := snapshot[start..];
      last := Some(snapshot[|snapshot| - 1].cursor);
    }
    var rest := SkipAndSend(uid, last, followed);
    assert items == [] ==> items + rest == rest;
    sent := Some(items + rest);
  }

  /** The numbering loop of the follow request: nothing is sent up to and including the last cursor. */
  method SkipAndSend(uid: string, last: Option<LogCursor>, followed: seq<Record>) returns (sent: seq<Item>)
    ensures sent == if last.None? then Items(uid, followed) else AfterCursor(Items(uid, followed), last.value)
  {
    sent := [];
    var foundLast := last.None?;
    ghost var all := Items(uid, followed);
    for i := 0 to |followed|
      invariant foundLast && last.None? ==> sent == all[..i]
      invariant foundLast && last.Some? ==> AfterCursor(all, last.value) == sent + all[i..]
      invariant !foundLast ==>
                  last.Some? && sent == [] && AfterCursor(all, last.value) == AfterCursor(all[i..], last.value)
    {
      var item := Item(followed[i], LogCursor(uid, i + 1, followed[i]));
      assert all[i] == item && all[i..] == [item] + all[i + 1..];
      if !foundLast {
        if Some(item.cursor) == last {
          foundLast := true;
        }
      } else {
        sent := sent + [item];
      }
    }
    assert all[|followed|..] == [];
  }

  // ---- one connection -------------------------------------------------------

  /** How far the snapshot and the follow request read into the log, and how much the client got of it. */
  datatype Connection = Connection(snapshot: nat, followed: nat, received: nat)

  ghost predicate Possible(records: seq<Record>, c: Connection) {
    c.snapshot <= c.followed <= |records|
  }

  lemma {:induction false} CursorFound(items: seq<Item>, i: nat)
    requires i < |items| && forall k :: 0 <= k < i ==> items[k].cursor != items[i].cursor
    ensures AfterCursor(items, items[i].cursor) == items[i + 1..]
  {
    if i > 0 {
      assert items[1..][i - 1] == items[i];
      CursorFound(items[1..], i - 1);
    }
  }

  /** Cursors of an append-only log identify positions: a resume is everything from its position on. */
  lemma ResumeIsSuffix(uid: string, records: seq<Record>, tail: nat, c: Connection, position: nat)
    requires Possible(records, c) && 0 < position <= |records|
    ensures var all := Items(uid, records[..c.followed]);
            Response(Items(uid, records[..c.snapshot]), all, tail, Some(Items(uid, records)[position - 1].cursor))
            == if position <= c.snapshot then Some(all[position..]) else None
  {
    var all := Items(uid, records[..c.followed]);
    var snapshot := Items(uid, records[..c.snapshot]);
    if position <= c.snapshot {
      assert Items(uid, records)[position - 1] == all[position - 1] == snapshot[position - 1];
      CursorFound(all, position - 1);
    }
  }

  /** A first request sends the tail of what its snapshot reads and everything after it. */
  lemma FirstIsSuffix(uid: string, records: seq<Record>, tail: nat, c: Connection)
    requires Possible(records, c)
    ensures var all := Items(uid, records[..c.followed]);
            Response(Items(uid, records[..c.snapshot]), all, tail, None) == Some(all[TailStart(c.snapshot, tail)..])
  {
    var all := Items(uid, records[..c.followed]);
    var snapshot := Items(uid, records[..c.snapshot]);
    assert snapshot == all[..c.snapshot];
    if c.snapshot > 0 {
      assert snapshot[c.snapshot - 1] == all[c.snapshot - 1];
      CursorFound(all, c.snapshot - 1);
      var start := TailStart(c.snapshot, tail);
      assert all[start..] == all[..c.snapshot][start..] + all[c.snapshot..];
    }
  }

  // ---- the client -----------------------------------------------------------

  ghost function LastCursor(delivered: seq<Item>): Option<LogCursor> {
    if delivered == [] then None else Some(delivered[|delivered| - 1].cursor)
  }

  ghost function Received(sent: seq<Item>, n: nat): seq<Item> {
    if n < |sent| then sent[..n] else sent
  }

  /** What the client holds after one more connection, or None when its cursor is refused. */
  ghost function Connected(
      uid: string, records: seq<Record>, tail: nat, delivered: seq<Item>, c: Connection): Option<seq<Item>>
    requires Possible(records, c)
  {
    var snapshot, followed := Items(uid, records[..c.snapshot]), Items(uid, records[..c.followed]);
    var sent := Response(snapshot, followed, tail, LastCursor(delivered));
    if sent.None? then None else Some(delivered + Received(sent.value, c.received))
  }

  ghost predicate AllPossible(records: seq<Record>, connections: seq<Connection>) {
    forall i :: 0 <= i < |connections| ==> Possible(records, connections[i])
  }

  /** What is delivered over the connections, and whether one of them was refused. */
  ghost function Followed(uid: string, records: seq<Record>, tail: nat, connections: seq<Connection>): (seq<Item>, bool)
    requires AllPossible(records, connections)
  {
    if connections == [] then ([], false)
    else
      var (delivered, gone) := Followed(uid, records, tail, connections[..|connections| - 1]);
      if gone then (delivered, true)
      else
        var next := Connected(uid, records, tail, delivered, connections[|connections| - 1]);
        if next.None? then (delivered, true) else (next.value, false)
  }

  /**
    * Reconnects until the server refuses the cursor or the connections are over. The log is append-only:
    * each connection reads some prefix of it.
    */
  method FollowAggregatedRunLogs(uid: string, records: seq<Record>, tail: nat, connections: seq<Connection>)
    returns (delivered: seq<Item>, gone: bool, stdout: string, stderr: string)
    requires AllPossible(records, connections)
    ensures (delivered, gone) == Followed(uid, records, tail, connections)
    ensures stdout == Printed(delivered, "stdout") && stderr == Printed(delivered, "stderr")
  {
    hide Response, Items, Followed, Connected, Printed, Received, LastCursor, Possible;
    var cursor: Option<LogCursor> := None;
    delivered, gone, stdout, stderr := [], false, "", "";
    NothingYet();
    FollowedNothing(uid, records, tail, connections);
    for n := 0 to |connections|
      invariant !gone && cursor == LastCursor(delivered)
      invariant stdout == Printed(delivered, "stdout") && stderr == Printed(delivered, "stderr")
      invariant Followed(uid, records, tail, connections[..n]) == (delivered, false)
    {
      FollowedOneMore(uid, records, tail, connections, n);
      var c := connections[n];
      PossibleAt(records, connections, n);
      var snapshot := Snapshot(uid, records[..c.snapshot]);
      var sent := Stream(uid, snapshot, tail, cursor, records[..c.followed]);
      if sent.None? {
        RefusalIsFinal(uid, records, tail, connections, n + 1);
        return delivered, true, stdout, stderr;
      }
      var got := if c.received < |sent.value| then sent.value[..c.received] else sent.value;
      ReceivedIs(sent.value, c.received, delivered);
      PrintedMore(delivered, got, "stdout");
      PrintedMore(delivered, got, "stderr");
      delivered := delivered + got;
      var next, out, err := WriteFollowRunLogsWithCursor(got);
      stdout, stderr := stdout + out, stderr + err;
      if next.Some? {
        cursor := next;
      }
    }
    assert connections[..|connections|] == connections;
  }

  lemma NothingYet()
    ensures LastCursor([]) == None && Printed([], "stdout") == "" && Printed([], "stderr") == ""
  {
  }

  lemma PossibleAt(records: seq<Record>, connections: seq<Connection>, n: nat)
    requires AllPossible(records, connections) && n < |connections|
    ensures connections[n].snapshot <= connections[n].followed <= |records|
  {
  }

  lemma ReceivedIs(sent: seq<Item>, n: nat, delivered: seq<Item>)
    ensures var got := Received(sent, n);
            && got == (if n < |sent| then sent[..n] else sent)
            && LastCursor(delivered + got) == if got == [] then LastCursor(delivered) else Some(got[|got| - 1].cursor)
  {
    assert delivered + [] == delivered;
  }

  lemma FollowedNothing(uid: string, records: seq<Record>, tail: nat, connections: seq<Connection>)
    requires AllPossible(records, connections)
    ensures Followed(uid, records, tail, connections[..0]) == ([], false)
  {
  }

  /** One connection more, written out. */
  lemma FollowedOneMore(uid: string, records: seq<Record>, tail: nat, connections: seq<Connection>, n: nat)
    requires AllPossible(records, connections) && n < |connections|
    requires !Followed(uid, records, tail, connections[..n]).1
    ensures var delivered := Followed(uid, records, tail, connections[..n]).0;
            var c := connections[n];
            var snapshot, followed := Items(uid, records[..c.snapshot]), Items(uid, records[..c.followed]);
            var sent := Response(snapshot, followed, tail, LastCursor(delivered));
            Followed(uid, records, tail, connections[..n + 1])
            == if sent.None? then (delivered, true) else (delivered + Received(sent.value, c.received), false)
  {
    hide Response, Items;
    assert connections[..n + 1][..n] == connections[..n];
  }

  lemma {:induction false} RefusalIsFinal(
      uid: string, records: seq<Record>, tail: nat, connections: seq<Connection>, n: nat)
    requires AllPossible(records, connections) && n <= |connections| && Followed(uid, records, tail, connections[..n]).1
    ensures Followed(uid, records, tail, connections) == Followed(uid, records, tail, connections[..n])
    decreases |connections|
  {
    if n == |connections| {
      assert connections[..n] == connections;
    } else {
      var front := connections[..|connections| - 1];
      assert front[..n] == connections[..n];
      RefusalIsFinal(uid, records, tail, front, n);
    }
  }

  /** A message as a line of its own; empty ones are not written. */
  function OutputLine(message: string): string {
    if message == "" || message[|message| - 1] == '\n' then message else message + "\n"
  }

  /** A message is written once, with a newline at its end whether it had one or not. */
  lemma OutputLineOf(message: string)
    ensures OutputLine("") == "" && OutputLine(message + "\n") == message + "\n"
    ensures message != "" && message[|message| - 1] != '\n' ==> OutputLine(message) == message + "\n"
  {
  }

  /** What the records of one stream print. */
  function Printed(items: seq<Item>, stream: string): string {
    if items == [] then ""
    else
      var last := items[|items| - 1].record;
      Printed(items[..|items| - 1], stream) + if last.stream == stream then OutputLine(last.message) else ""
  }

  lemma {:induction false} PrintedMore(items: seq<Item>, more: seq<Item>, stream: string)
    ensures Printed(items + more, stream) == Printed(items, stream) + Printed(more, stream)
  {
    if more == [] {
      assert items + more == items;
    } else {
      var n := |more| - 1;
      assert (items + more)[..|items + more| - 1] == items + more[..n];
      PrintedMore(items, more[..n], stream);
    }
  }

  /** Prints stdout and stderr records, and returns the cursor of the last record of any kind. */
  method WriteFollowRunLogsWithCursor(got: seq<Item>)
    returns (cursor: Option<LogCursor>, stdout: string, stderr: string)
    ensures cursor == if got == [] then None else Some(got[|got| - 1].cursor)
    ensures stdout == Printed(got, "stdout") && stderr == Printed(got, "stderr")
  {
    cursor, stdout, stderr := None, "", "";
    for i := 0 to |got|
      invariant cursor == if i == 0 then None else Some(got[i - 1].cursor)
      invariant stdout == Printed(got[..i], "stdout") && stderr == Printed(got[..i], "stderr")
    {
      assert got[..i + 1][..i] == got[..i];
      match got[i].record.stream {
        case "stdout" => stdout := stdout + OutputLine(got[i].record.message);
        case "stderr" => stderr := stderr + OutputLine(got[i].record.message);
        case _ =>
      }
      cursor := Some(got[i].cursor);
    }
    assert got[..|got|] == got;
  }

  // ---- what a follower gets -------------------------------------------------

  /** The delivered items are the records from first on, without gap or duplicate. */
  ghost predicate Block(uid: string, records: seq<Record>, delivered: seq<Item>, first: nat) {
    first + |delivered| <= |records| && delivered == Items(uid, records)[first..first + |delivered|]
  }

  lemma BlockExtends(uid: string, records: seq<Record>, delivered: seq<Item>, first: nat, followed: nat, n: nat)
    requires followed <= |records| && first + |delivered| <= followed && Block(uid, records, delivered, first)
    ensures var got := Received(Items(uid, records[..followed])[first + |delivered|..], n);
            && Block(uid, records, delivered + got, first)
            && (n >= followed - first - |delivered| ==> first + |delivered + got| == followed)
  {
    var all := Items(uid, records);
    assert Items(uid, records[..followed]) == all[..followed];
    var got := Received(all[..followed][first + |delivered|..], n);
    assert got == all[first + |delivered|..first + |delivered| + |got|];
  }

  /** One connection: refused exactly when its snapshot ends before the cursor; otherwise it continues the block. */
  lemma ConnectionContinues(
      uid: string, records: seq<Record>, tail: nat, delivered: seq<Item>, first: nat, c: Connection)
    requires Possible(records, c) && Block(uid, records, delivered, first)
    ensures var next := Connected(uid, records, tail, delivered, c);
            && (next.None? <==> delivered != [] && c.snapshot < first + |delivered|)
            && (next.Some? ==>
                  var start := if delivered == [] then TailStart(c.snapshot, tail) else first;
                  && delivered <= next.value && Block(uid, records, next.value, start)
                  && (c.received >= c.followed ==> start + |next.value| == c.followed))
  {
    hide Items, Response;
    if delivered == [] {
      FirstIsSuffix(uid, records, tail, c);
      var start := TailStart(c.snapshot, tail);
      assert Block(uid, records, [], start) by {
        NoRecords(uid, records, start);
      }
      BlockExtends(uid, records, [], start, c.followed, c.received);
    } else {
      var position := first + |delivered|;
      LastOfBlock(uid, records, delivered, first);
      ResumeIsSuffix(uid, records, tail, c, position);
      if position <= c.snapshot {
        BlockExtends(uid, records, delivered, first, c.followed, c.received);
      }
    }
  }

  lemma NoRecords(uid: string, records: seq<Record>, start: nat)
    requires start <= |records|
    ensures Block(uid, records, [], start)
  {
  }

  lemma LastOfBlock(uid: string, records: seq<Record>, delivered: seq<Item>, first: nat)
    requires Block(uid, records, delivered, first) && delivered != []
    ensures LastCursor(delivered) == Some(Items(uid, records)[first + |delivered| - 1].cursor)
  {
  }

  /** Over any number of reconnects, each cut anywhere, the delivered records are one contiguous block. */
  lemma {:induction false} FollowedIsOneBlock(
      uid: string, records: seq<Record>, tail: nat, connections: seq<Connection>)
      returns (first: nat)
    requires AllPossible(records, connections)
    ensures Block(uid, records, Followed(uid, records, tail, connections).0, first)
  {
    if connections == [] {
      first := 0;
    } else {
      var front, c := connections[..|connections| - 1], connections[|connections| - 1];
      first := FollowedIsOneBlock(uid, records, tail, front);
      var (delivered, gone) := Followed(uid, records, tail, front);
      ConnectionContinues(uid, records, tail, delivered, first, c);
      hide Connected, Block;
      if !gone && Connected(uid, records, tail, delivered, c).Some? && delivered == [] {
        first := TailStart(c.snapshot, tail);
      }
    }
  }

  // ---- a log that loses its beginning ---------------------------------------

  /**
    * Of the log with its first records dropped, the part read has a record equal in every field, timestamp
    * included, in the place that the record had in the whole log.
    */
  ghost predicate StandsAt(records: seq<Record>, part: seq<Record>, position: nat)
    requires 0 < position <= |records|
  {
    position <= |part| && part[position - 1] == records[position - 1]
  }

  lemma CursorInPart(uid: string, records: seq<Record>, part: seq<Record>, position: nat)
    requires 0 < position <= |records|
    ensures var c := LogCursor(uid, position, records[position - 1]);
            && (Retained(Items(uid, part), c) <==> StandsAt(records, part, position))
            && AfterCursor(Items(uid, part), c)
               == if StandsAt(records, part, position) then Items(uid, part)[position..] else []
  {
    var items, c := Items(uid, part), LogCursor(uid, position, records[position - 1]);
    assert forall i :: 0 <= i < |items| ==> items[i].cursor.index == i + 1;
    if StandsAt(records, part, position) {
      assert items[position - 1].cursor == c;
      CursorFound(items, position - 1);
    } else {
      CursorAbsent(items, c);
    }
  }

  lemma {:induction false} CursorAbsent(items: seq<Item>, c: LogCursor)
    requires !Retained(items, c)
    ensures AfterCursor(items, c) == []
  {
    if items != [] {
      assert items[0].cursor != c;
      forall i | 0 <= i < |items[1..]| ensures items[1..][i].cursor != c {
        assert items[i + 1] == items[1..][i];
      }
      CursorAbsent(items[1..], c);
    }
  }

  /**
    * A resume after records were dropped, the snapshot and the follow request reading any two parts of the
    * log: refused unless the snapshot has an identical record in the cursor's place; otherwise everything
    * after that place is sent, and nothing at all if the follow request does not meet it there.
    */
  lemma RotatedResumeIff(
      uid: string, records: seq<Record>, read: seq<Record>, followed: seq<Record>, position: nat, tail: nat)
    requires 0 < position <= |records|
    ensures Response(Items(uid, read), Items(uid, followed), tail, Some(Items(uid, records)[position - 1].cursor))
         == if !StandsAt(records, read, position) then None
            else if StandsAt(records, followed, position) then Some(Items(uid, followed)[position..])
            else Some([])
  {
    CursorInPart(uid, records, read, position);
    CursorInPart(uid, records, followed, position);
  }

  ghost predicate DistinctStamps(records: seq<Record>) {
    forall i, j :: 0 <= i < j < |records| ==> records[i].timestamp != records[j].timestamp
  }

  /**
    * With distinct timestamps: refused exactly when records were lost before the snapshot or the snapshot
    * ends before the cursor; accepted and silent exactly when they were lost between it and the stream.
    */
  lemma DistinctStampsResume(
      uid: string, records: seq<Record>, lost: nat, snapshot: nat, lostThen: nat, end: nat, position: nat, tail: nat)
    requires 0 < position <= |records| && DistinctStamps(records)
    requires lost <= snapshot <= end <= |records| && lost <= lostThen <= end
    ensures var read, followed := Items(uid, records[lost..snapshot]), Items(uid, records[lostThen..end]);
            Response(read, followed, tail, Some(Items(uid, records)[position - 1].cursor))
            == if lost > 0 || snapshot < position then None
               else if lostThen > 0 then Some([])
               else Some(followed[position..])
  {
    var read, followed := records[lost..snapshot], records[lostThen..end];
    RotatedResumeIff(uid, records, read, followed, position, tail);
    if position <= |read| {
      assert read[position - 1] == records[lost + position - 1];
    }
    if position <= |followed| {
      assert followed[position - 1] == records[lostThen + position - 1];
    }
  }

  /** The delivered record is dropped between the snapshot and the stream: the next one is never sent. */
  lemma DroppedBetweenIsSilent(uid: string, first: Record, second: Record, tail: nat)
    ensures Response(Items(uid, [first, second]), Items(uid, [second]), tail,
                     Some(Items(uid, [first, second])[0].cursor)) == Some([])
  {
    RotatedResumeIff(uid, [first, second], [first, second], [second], 1, tail);
  }

  /** Three identical records, the first delivered and then dropped: the resume skips the second. */
  lemma IdenticalRecordSkips(uid: string, r: Record, tail: nat)
    ensures var kept := Items(uid, [r, r, r][1..]);
            Response(kept, kept, tail, Some(Items(uid, [r, r, r])[0].cursor)) == Some(Items(uid, [r, r, r][1..])[1..])
    ensures Items(uid, [r, r, r][1..])[1..] != Items(uid, [r, r, r][1..])
  {
    RotatedResumeIff(uid, [r, r, r], [r, r, r][1..], [r, r, r][1..], 1, tail);
  }

  // ---- the size of a snapshot -----------------------------------------------

  const MAX_SNAPSHOT_BYTES := 1024 * 1024

  /** How many leading records a snapshot of so many bytes can hold. */
  ghost function FittingRecords(bytes: Record -> nat, records: seq<Record>, budget: nat): (n: nat)
    ensures n <= |records|
  {
    if records == [] || bytes(records[0]) > budget then 0
    else 1 + FittingRecords(bytes, records[1..], budget - bytes(records[0]))
  }

  ghost function Size(bytes: Record -> nat, records: seq<Record>): nat {
    if records == [] then 0 else bytes(records[0]) + Size(bytes, records[1..])
  }

  /** No longer run of leading records fits. */
  lemma {:induction false} FittingIsLargest(bytes: Record -> nat, records: seq<Record>, budget: nat, n: nat)
    requires n <= |records|
    ensures Size(bytes, records[..n]) <= budget <==> n <= FittingRecords(bytes, records, budget)
  {
    if n > 0 {
      assert records[..n][1..] == records[1..][..n - 1];
      if bytes(records[0]) <= budget {
        FittingIsLargest(bytes, records[1..], budget - bytes(records[0]), n - 1);
      }
    }
  }

  /** Snapshots stop at their byte limit: a follower that has read past it is refused when it reconnects. */
  lemma PastLimitRefused(
      uid: string, records: seq<Record>, bytes: Record -> nat, tail: nat, connections: seq<Connection>, c: Connection,
      first: nat)
    requires AllPossible(records, connections) && Possible(records, c)
    requires c.snapshot <= FittingRecords(bytes, records, MAX_SNAPSHOT_BYTES)
    requires Block(uid, records, Followed(uid, records, tail, connections).0, first)
    requires Followed(uid, records, tail, connections).0 != []
    requires first + |Followed(uid, records, tail, connections).0| > FittingRecords(bytes, records, MAX_SNAPSHOT_BYTES)
    ensures Followed(uid, records, tail, connections + [c]) == (Followed(uid, records, tail, connections).0, true)
  {
    var (delivered, gone) := Followed(uid, records, tail, connections);
    assert (connections + [c])[..|connections|] == connections;
    ConnectionContinues(uid, records, tail, delivered, first, c);
  }
}
