/** Writing Runtime output as log lines while it grows, against splitting it once at the end. */
module OutputCursor {

  // ---- the batch split ------------------------------------------------------

  /** The position of the first newline, or the length when there is none. */
  ghost function FirstNewline(s: string): (i: nat)
    ensures i <= |s| && (i < |s| ==> s[i] == '\n') && '\n' !in s[..i]
  {
    if s == "" || s[0] == '\n' then 0
    else
      var i := 1 + FirstNewline(s[1..]);
      assert s[..i] == [s[0]] + s[1..][..i - 1];
      i
  }

  /** The text between newlines. */
  ghost function Split(s: string): seq<string>
    decreases |s|
  {
    var i := FirstNewline(s);
    if i == |s| then [s] else [s[..i]] + Split(s[i + 1..])
  }

  /** A carriage return before the newline is not part of the message. */
  function Trim(line: string): string {
    if |line| > 0 && line[|line| - 1] == '\r' then line[..|line| - 1] else line
  }

  function Message(line: string): seq<string> {
    if line == "" then [] else [Trim(line)]
  }

  ghost function Messages(lines: seq<string>): seq<string> {
    if lines == [] then [] else Message(lines[0]) + Messages(lines[1..])
  }

  /** Lines with a newline between each two. */
  ghost function Joined(lines: seq<string>): string {
    if lines == [] then "" else if |lines| == 1 then lines[0] else lines[0] + "\n" + Joined(lines[1..])
  }

  /** Splitting is undone by joining, and no piece holds a newline. */
  lemma {:induction false} SplitJoins(s: string)
    ensures Split(s) != [] && Joined(Split(s)) == s
    ensures forall line :: line in Split(s) ==> '\n' !in line
    decreases |s|
  {
    var i := FirstNewline(s);
    if i < |s| {
      SplitJoins(s[i + 1..]);
      assert Split(s)[1..] == Split(s[i + 1..]);
      assert s == s[..i] + "\n" + s[i + 1..];
    } else {
      assert s[..i] == s;
    }
  }

  /** An empty line is not written; a line loses one carriage return at its end and nothing else. */
  lemma MessageOf(line: string)
    ensures Message(line) == [] <==> line == ""
    ensures Message(line + "\r") == [line]
    ensures line != "" && line[|line| - 1] != '\r' ==> Message(line) == [line]
  {
    assert (line + "\r")[..|line|] == line;
  }

  /** Output without empty lines and carriage returns is written as it stands. */
  lemma {:induction false} WrittenWhole(lines: seq<string>)
    requires forall line :: line in lines ==> line != "" && '\r' !in line
    ensures Messages(lines) == lines
  {
    if lines != [] {
      assert lines[0] in lines && forall line :: line in lines[1..] ==> line in lines;
      MessageOf(lines[0]);
      WrittenWhole(lines[1..]);
      assert lines == [lines[0]] + lines[1..];
    }
  }

  // ---- complete lines and the rest ------------------------------------------

  ghost function CompleteLines(s: string): seq<string>
    decreases |s|
  {
    var i := FirstNewline(s);
    if i == |s| then [] else Message(s[..i]) + CompleteLines(s[i + 1..])
  }

  ghost function Rest(s: string): string
    decreases |s|
  {
    var i := FirstNewline(s);
    if i == |s| then s else Rest(s[i + 1..])
  }

  lemma {:induction false} FirstNewlineIs(s: string, i: nat)
    requires i < |s| && s[i] == '\n' && '\n' !in s[..i]
    ensures FirstNewline(s) == i
  {
    if i > 0 {
      assert s[..i] == [s[0]] + s[1..][..i - 1];
      FirstNewlineIs(s[1..], i - 1);
    }
  }

  lemma {:induction false} FirstNewlineBound(s: string, k: nat)
    requires k < |s| && s[k] == '\n'
    ensures FirstNewline(s) <= k
  {
    if k > 0 && s[0] != '\n' {
      FirstNewlineBound(s[1..], k - 1);
    }
  }

  lemma MessagesCons(line: string, lines: seq<string>)
    ensures Messages([line] + lines) == Message(line) + Messages(lines)
    ensures Messages([line]) == Message(line)
  {
    assert ([line] + lines)[1..] == lines;
    assert [line][1..] == [];
  }

  lemma NoNewline(s: string)
    requires '\n' !in s
    ensures FirstNewline(s) == |s|
  {
  }

  lemma FirstLine(s: string)
    requires FirstNewline(s) < |s|
    ensures var i := FirstNewline(s);
            && CompleteLines(s) == Message(s[..i]) + CompleteLines(s[i + 1..])
            && Rest(s) == Rest(s[i + 1..]) && Split(s) == [s[..i]] + Split(s[i + 1..])
  {
  }

  lemma OneOpenLine(s: string)
    requires '\n' !in s
    ensures CompleteLines(s) == [] && Rest(s) == s && Split(s) == [s]
  {
    NoNewline(s);
  }

  lemma FirstNewlineExtends(a: string, b: string)
    ensures FirstNewline(a) < |a| ==> FirstNewline(a + b) == FirstNewline(a)
  {
    var i := FirstNewline(a);
    if i < |a| {
      assert (a + b)[..i] == a[..i];
      FirstNewlineIs(a + b, i);
    }
  }

  /** Complete lines are those of the earlier text and those its rest completes. */
  lemma {:induction false} LinesExtend(a: string, b: string)
    ensures CompleteLines(a + b) == CompleteLines(a) + CompleteLines(Rest(a) + b)
    ensures Rest(a + b) == Rest(Rest(a) + b)
    decreases |a|
  {
    var i := FirstNewline(a);
    if i < |a| {
      FirstNewlineExtends(a, b);
      assert (a + b)[..i] == a[..i];
      assert (a + b)[i + 1..] == a[i + 1..] + b;
      LinesExtend(a[i + 1..], b);
    }
  }

  /** The batch split is the complete lines and then the rest. */
  lemma {:induction false} SplitIsLinesAndRest(s: string)
    ensures Messages(Split(s)) == CompleteLines(s) + Message(Rest(s))
    decreases |s|
  {
    var i := FirstNewline(s);
    hide Messages, Message, FirstNewline;
    if i == |s| {
      MessagesCons(s, []);
    } else {
      SplitIsLinesAndRest(s[i + 1..]);
      MessagesCons(s[..i], Split(s[i + 1..]));
    }
  }

  /** Up to its last newline, a text is split into complete lines. */
  lemma {:induction false} LastNewlineSplits(s: string, last: nat)
    requires last < |s| && s[last] == '\n' && '\n' !in s[last + 1..]
    ensures CompleteLines(s) == Messages(Split(s[..last])) && Rest(s) == s[last + 1..]
    decreases |s|
  {
    hide *;
    var i := FirstNewline(s);
    FirstNewlineBound(s, last);
    FirstLine(s);
    if i == last {
      OneOpenLine(s[..last]);
      OneOpenLine(s[last + 1..]);
      MessagesCons(s[..last], []);
    } else {
      var t := s[i + 1..];
      assert t[last - i..] == s[last + 1..];
      LastNewlineSplits(t, last - i - 1);
      SplitPrefix(s, i, last);
      MessagesCons(s[..i], Split(t[..last - i - 1]));
    }
  }

  lemma SplitPrefix(s: string, i: nat, last: nat)
    requires i < last <= |s| && s[i] == '\n' && '\n' !in s[..i]
    ensures Split(s[..last]) == [s[..i]] + Split(s[i + 1..][..last - i - 1])
  {
    var t := s[..last];
    assert t[..i] == s[..i];
    assert t[i + 1..] == s[i + 1..][..last - i - 1];
    FirstNewlineIs(t, i);
    FirstLine(t);
  }

  // ---- the cursor -----------------------------------------------------------

  /** seen characters of prefix have been taken; the hash of prefix stands for prefix itself. */
  datatype Cursor = Cursor(seen: nat, prefix: string, hasHash: bool, pending: string)

  const FRESH := Cursor(0, "", false, "")

  predicate Lost(c: Cursor, content: string) {
    c.seen > |content| || (c.hasHash && content[..c.seen] != c.prefix)
  }

  /** The text a poll works on: what was pending, then what is new. */
  function Combined(c: Cursor, content: string): string {
    if Lost(c, content) then content else c.pending + content[c.seen..]
  }

  ghost function Polled(c: Cursor, content: string, terminal: bool): Cursor {
    Cursor(|content|, content, true, if terminal then "" else Rest(Combined(c, content)))
  }

  ghost function Lines(c: Cursor, content: string, terminal: bool): seq<string> {
    CompleteLines(Combined(c, content)) + if terminal then Message(Rest(Combined(c, content))) else []
  }

  class Emitter {
    var seen: nat
    var prefix: string
    var hasHash: bool
    var pending: string
    var written: seq<string>

    ghost function State(): Cursor
      reads this
    {
      Cursor(seen, prefix, hasHash, pending)
    }

    constructor ()
      ensures State() == FRESH && written == []
    {
      seen, prefix, hasHash, pending, written := 0, "", false, "", [];
    }

    method EmitOutputDelta(content: string, terminal: bool)
      modifies this
      ensures State() == Polled(old(State()), content, terminal)
      ensures written == old(written) + Lines(old(State()), content, terminal)
    {
      hide CompleteLines, Rest, Messages, Split, FirstNewline;
      if seen > |content| || (hasHash && content[..seen] != prefix) {
        seen := 0;
        pending := "";
      }
      var newContent := content[seen..];
      seen := |content|;
      prefix := content;
      hasHash := true;
      var combined := pending + newContent;
      assert combined == Combined(old(State()), content);
      pending := WriteComplete(combined);
      if terminal && pending != "" {
        written := written + [Trim(pending)];
        pending := "";
      }
    }

    /** Writes the complete lines and returns what follows the last newline. */
    method WriteComplete(combined: string) returns (rest: string)
      modifies `written
      ensures written == old(written) + CompleteLines(combined) && rest == Rest(combined)
    {
      hide CompleteLines, Rest, Messages, Split, FirstNewline;
      var last := LastNewline(combined);
      if last >= 0 {
        LastNewlineSplits(combined, last);
        WriteLines(combined[..last]);
        rest := combined[last + 1..];
      } else {
        OneOpenLine(combined);
        rest := combined;
      }
    }

    /** Writes the non-empty lines of the text. */
    method WriteLines(text: string)
      modifies `written
      ensures written == old(written) + Messages(Split(text))
    {
      hide Messages, Split, FirstNewline;
      assert text[0..] == text;
      var start := 0;
      var done := false;
      while !done
        invariant start <= |text|
        invariant !done ==> old(written) + Messages(Split(text)) == written + Messages(Split(text[start..]))
        invariant done ==> written == old(written) + Messages(Split(text))
        decreases !done, |text| - start
      {
        var end := start;
        while end < |text| && text[end] != '\n'
          invariant start <= end <= |text| && '\n' !in text[start..end]
        {
          assert text[start..end + 1] == text[start..end] + [text[end]];
          end := end + 1;
        }
        NextLine(text, start, end);
        if text[start..end] != "" {
          written := written + [Trim(text[start..end])];
        }
        if end == |text| {
          done := true;
        } else {
          start := end + 1;
        }
      }
    }
  }

  lemma NextLine(text: string, start: nat, end: nat)
    requires start <= end <= |text| && '\n' !in text[start..end] && (end < |text| ==> text[end] == '\n')
    ensures Messages(Split(text[start..]))
         == Message(text[start..end]) + if end == |text| then [] else Messages(Split(text[end + 1..]))
  {
    hide Messages, Message, FirstNewline;
    var s := text[start..];
    assert s[..end - start] == text[start..end];
    if end == |text| {
      assert s == text[start..end];
      NoNewline(s);
      MessagesCons(s, []);
    } else {
      FirstNewlineIs(s, end - start);
      assert s[end - start + 1..] == text[end + 1..];
      MessagesCons(s[..end - start], Split(text[end + 1..]));
    }
  }

  method LastNewline(s: string) returns (last: int)
    ensures -1 <= last < |s|
    ensures last >= 0 ==> s[last] == '\n' && '\n' !in s[last + 1..]
    ensures last < 0 ==> '\n' !in s
  {
    last := |s| - 1;
    while last >= 0 && s[last] != '\n'
      invariant -1 <= last < |s| && '\n' !in s[last + 1..]
    {
      assert s[last..] == [s[last]] + s[last + 1..];
      last := last - 1;
    }
    assert last < 0 ==> s[last + 1..] == s;
  }

  // ---- runs of polls --------------------------------------------------------

  /** The cursor after a run of polls of a Run that has not ended. */
  ghost function After(polls: seq<string>): Cursor {
    if polls == [] then FRESH
    else Polled(After(polls[..|polls| - 1]), polls[|polls| - 1], false)
  }

  /** Everything written by a run of polls. */
  ghost function Written(polls: seq<string>): seq<string> {
    if polls == [] then []
    else Written(polls[..|polls| - 1]) + Lines(After(polls[..|polls| - 1]), polls[|polls| - 1], false)
  }

  /** What was written since the content was last found to have lost its earlier text. */
  ghost function SinceReset(polls: seq<string>): seq<string> {
    if polls == [] then []
    else
      var before := polls[..|polls| - 1];
      var content := polls[|polls| - 1];
      (if Lost(After(before), content) then [] else SinceReset(before)) + Lines(After(before), content, false)
  }

  ghost predicate Growing(polls: seq<string>) {
    forall i :: 0 < i < |polls| ==> polls[i - 1] <= polls[i]
  }

  ghost function Latest(polls: seq<string>): string {
    if polls == [] then "" else polls[|polls| - 1]
  }

  /** The cursor has taken all of its prefix and holds back the unfinished line. */
  ghost predicate Tracks(c: Cursor) {
    c.pending == Rest(c.prefix) && c.seen == |c.prefix| && (c.hasHash || c.prefix == "")
  }

  lemma LostIff(c: Cursor, content: string)
    requires Tracks(c)
    ensures Lost(c, content) <==> !(c.prefix <= content)
  {
  }

  lemma PollAfresh(c: Cursor, content: string)
    requires Tracks(c) && Lost(c, content)
    ensures CompleteLines(content) == Lines(c, content, false) && Tracks(Polled(c, content, false))
  {
  }

  /** A poll that still has the earlier text writes the complete lines it adds, and a flush the rest. */
  lemma PollExtends(c: Cursor, content: string)
    requires Tracks(c) && c.prefix <= content
    ensures CompleteLines(content) == CompleteLines(c.prefix) + Lines(c, content, false)
    ensures Messages(Split(content)) == CompleteLines(c.prefix) + Lines(c, content, true)
    ensures Tracks(Polled(c, content, false))
  {
    hide Messages, Split, FirstNewline, Message, CompleteLines, Rest;
    LostIff(c, content);
    SplitIsLinesAndRest(content);
    assert content == c.prefix + content[c.seen..];
    LinesExtend(c.prefix, content[c.seen..]);
  }

  /** For any polls, what was written since the last reset is exactly the complete lines of the latest content. */
  lemma {:induction false} SinceResetIsComplete(polls: seq<string>)
    ensures SinceReset(polls) == CompleteLines(Latest(polls))
    ensures After(polls).prefix == Latest(polls) && Tracks(After(polls))
  {
    if polls == [] {
      OneOpenLine("");
    } else {
      var before, content := polls[..|polls| - 1], polls[|polls| - 1];
      SinceResetIsComplete(before);
      LostIff(After(before), content);
      hide Lines, CompleteLines, Polled, Tracks;
      if Lost(After(before), content) {
        PollAfresh(After(before), content);
      } else {
        PollExtends(After(before), content);
      }
      assert After(polls).prefix == content by {
        PolledPrefix(After(before), content);
      }
    }
  }

  lemma PolledPrefix(c: Cursor, content: string)
    ensures Polled(c, content, false).prefix == content
  {
  }

  lemma {:induction false} GrowingNeverResets(polls: seq<string>)
    requires Growing(polls)
    ensures Written(polls) == SinceReset(polls)
  {
    if polls != [] {
      var before := polls[..|polls| - 1];
      GrowingNeverResets(before);
      SinceResetIsComplete(before);
      LostIff(After(before), polls[|polls| - 1]);
      if before != [] {
        assert polls[|polls| - 1 - 1] <= polls[|polls| - 1];
      }
    }
  }

  /** Polls of growing content and a final flush write exactly the non-empty lines of the final content. */
  lemma IncrementalIsBatch(polls: seq<string>, final: string)
    requires Growing(polls + [final])
    ensures Written(polls) + Lines(After(polls), final, true) == Messages(Split(final))
  {
    var all := polls + [final];
    assert forall i :: 0 <= i < |polls| ==> all[i] == polls[i];
    assert Growing(polls) by {
      forall i | 0 < i < |polls| ensures polls[i - 1] <= polls[i] {
        assert all[i - 1] <= all[i];
      }
    }
    GrowingNeverResets(polls);
    SinceResetIsComplete(polls);
    if polls != [] {
      assert all[|polls| - 1] <= all[|polls|];
    }
    PollExtends(After(polls), final);
  }

  /** Flushing the same final content again writes nothing. */
  lemma FlushTwiceWritesOnce(c: Cursor, final: string)
    ensures Lines(Polled(c, final, true), final, true) == []
  {
    var d := Polled(c, final, true);
    assert final[..d.seen] == final;
    assert Combined(d, final) == "";
    OneOpenLine("");
  }
}
