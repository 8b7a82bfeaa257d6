/** Cutting a byte stream into server-sent-event frames, and frames into events. Bytes are the
    characters of a string. */
module SseFrames {
  import opened Common

  datatype SseEvent = SseEvent(event: Option<string>, data: string)

  predicate IsEol(c: char) { c == '\r' || c == '\n' }

  /** The length of the line ending at `at`, as far as the buffer shows it. */
  function LineEndingLen(b: string, at: nat): (n: Option<nat>)
    ensures n.Some? <==> at < |b| && IsEol(b[at])
    ensures n.Some? ==> 1 <= n.value <= 2 && at + n.value <= |b|
  {
    if at + 1 < |b| && b[at] == '\r' && b[at + 1] == '\n' then Some(2)
    else if at < |b| && IsEol(b[at]) then Some(1)
    else None
  }

  /** Where the first frame that starts its delimiter at or after `start` ends, and the length of
      its delimiter of two line endings. */
  function FrameEnd(b: string, start: nat): (r: Option<(nat, nat)>)
    ensures r.Some? ==> start <= r.value.0 && 2 <= r.value.1 && r.value.0 + r.value.1 <= |b|
    decreases |b| - start
  {
    if start >= |b| then None
    else
      match LineEndingLen(b, start)
      case None => FrameEnd(b, start + 1)
      case Some(first) =>
        match LineEndingLen(b, start + first)
        case Some(second) => Some((start, first + second))
        case None => FrameEnd(b, start + 1)
  }

  /** The field values a frame has set so far. */
  datatype Fields = Fields(event: Option<string>, data: seq<string>)

  const NO_FIELDS := Fields(None, [])

  function IndexOf(s: string, c: char): (i: nat)
    ensures i <= |s|
    ensures i < |s| ==> s[i] == c
    ensures forall j | 0 <= j < i :: s[j] != c
  {
    if s == "" || s[0] == c then 0 else 1 + IndexOf(s[1..], c)
  }

  function StripSpace(s: string): string {
    if s != "" && s[0] == ' ' then s[1..] else s
  }

  /** Takes one line into account. */
  function AddLine(f: Fields, line: string): Fields {
    if line == "" || line[0] == ':' then f
    else
      var i := IndexOf(line, ':');
      var field := line[..i];
      var value := StripSpace(if i < |line| then line[i + 1..] else "");
      if field == "event" then f.(event := Some(value))
      else if field == "data" then f.(data := f.data + [value])
      else f
  }

  function Join(parts: seq<string>): string {
    if parts == [] then ""
    else if |parts| == 1 then parts[0]
    else parts[0] + "\n" + Join(parts[1..])
  }

  /** The fields that a group of lines sets. */
  function Gather(lines: seq<string>): Fields {
    if lines == [] then NO_FIELDS else AddLine(Gather(lines[..|lines| - 1]), lines[|lines| - 1])
  }

  /** The event that a group of lines makes, if it has any data. */
  function Dispatch(lines: seq<string>): seq<SseEvent> {
    var f := Gather(lines);
    if f.data == [] then [] else [SseEvent(f.event, Join(f.data))]
  }

  /** The first line ending at or after `at`, or the end. */
  function FirstEol(s: string, at: nat): (i: nat)
    requires at <= |s|
    ensures at <= i <= |s|
    ensures i < |s| ==> IsEol(s[i])
    ensures forall j | at <= j < i :: !IsEol(s[j])
    decreases |s| - at
  {
    if at == |s| || IsEol(s[at]) then at else FirstEol(s, at + 1)
  }

  /** `lines` and the non-empty lines of a frame from `at` on, cut at every CR and LF. */
  function FrameLines(lines: seq<string>, frame: string, at: nat): seq<string>
    requires at <= |frame|
    decreases |frame| - at
  {
    var i := FirstEol(frame, at);
    var next := if i == at then lines else lines + [frame[at..i]];
    if i == |frame| then next else FrameLines(next, frame, i + 1)
  }

  /** The lines of a frame as a group, unless there are none. */
  function Group(lines: seq<string>): seq<seq<string>> {
    if lines == [] then [] else [lines]
  }

  /** The events that groups of lines dispatch. */
  function EventsOf(groups: seq<seq<string>>): seq<SseEvent> {
    if groups == [] then [] else Dispatch(groups[0]) + EventsOf(groups[1..])
  }

  lemma EventsOfGroup(lines: seq<string>, rest: seq<seq<string>>)
    ensures EventsOf(Group(lines) + rest) == Dispatch(lines) + EventsOf(rest)
  {
    if lines == [] {
      assert Group(lines) + rest == rest && Dispatch(lines) == [];
    } else {
      assert (Group(lines) + rest)[1..] == rest;
    }
  }

  /** What the connection delivers next. */
  datatype Item = Chunk(bytes: string) | Failure

  datatype Outcome = Ended | Partial | Broken

  datatype Feed = Feed(frames: seq<seq<string>>, outcome: Outcome) {
    function Events(): seq<SseEvent> { EventsOf(frames) }
  }

  /** The frames that the buffering loop finds up to the first end or error, when `s` has been received
      so far and the buffer holds it from `at` on. */
  function Yield(s: string, at: nat, items: seq<Item>): Feed
    requires at <= |s|
    decreases |items|, |s| - at
  {
    var found := FrameEnd(s, at);
    if found.Some? then
      var rest := Yield(s, found.value.0 + found.value.1, items);
      Feed(Group(FrameLines([], s[..found.value.0], at)) + rest.frames, rest.outcome)
    else if items == [] then Feed([], if at == |s| then Ended else Partial)
    else if items[0].Failure? then Feed([], Broken)
    else Yield(s + items[0].bytes, at, items[1..])
  }

  lemma {:induction false} FrameLinesShift(lines: seq<string>, s: string, at: nat, from: nat)
    requires from <= at <= |s|
    ensures FrameLines(lines, s, at) == FrameLines(lines, s[from..], at - from)
    decreases |s| - at
  {
    var i, j := FirstEol(s, at), FirstEol(s[from..], at - from);
    assert forall k | 0 <= k < |s| - from :: s[from..][k] == s[from + k];
    assert i == j + from;
    assert s[from..][at - from..j] == s[at..i];
    if i < |s| {
      FrameLinesShift(if i == at then lines else lines + [s[at..i]], s, i + 1, from);
    }
  }

  /** Looking for a frame end in a buffer is looking for it in place. */
  lemma {:induction false} FrameEndShift(s: string, at: nat, start: nat)
    requires at <= start && at <= |s|
    ensures FrameEnd(s, start) ==
      match FrameEnd(s[at..], start - at) case None => None case Some((e, n)) => Some((e + at, n))
    decreases |s| - start
  {
    if start < |s| {
      FrameEndShift(s, at, start + 1);
    }
  }
}

/** The transport object. */
module SseTransport {
  import opened Common
  import opened SseFrames

  datatype Next = Event(event: SseEvent) | End | Error(message: string)

  method SseFrameEnd(buffer: string) returns (r: Option<(nat, nat)>)
    ensures r == FrameEnd(buffer, 0)
  {
    for start := 0 to |buffer|
      invariant FrameEnd(buffer, start) == FrameEnd(buffer, 0)
    {
      var first := LineEndingLen(buffer, start);
      if first.Some? {
        var second := LineEndingLen(buffer, start + first.value);
        if second.Some? {
          return Some((start, first.value + second.value));
        }
      }
    }
    r := None;
  }

  function AsSeq<T>(o: Option<T>): seq<T> {
    match o case None => [] case Some(x) => [x]
  }

  method ParseSseFrame(frame: string) returns (r: Option<SseEvent>)
    ensures Dispatch(FrameLines([], frame, 0)) == AsSeq(r)
  {
    var fields := NO_FIELDS;
    var at := 0;
    ghost var lines: seq<string> := [];
    while true
      invariant 0 <= at <= |frame|
      invariant FrameLines(lines, frame, at) == FrameLines([], frame, 0)
      invariant fields == Gather(lines)
      decreases |frame| - at
    {
      var i := FirstEol(frame, at);
      if i != at {
        var line := frame[at..i];
        assert (lines + [line])[..|lines|] == lines;
        fields := AddLine(fields, line);
        lines := lines + [line];
      }
      if i == |frame| {
        break;
      }
      at := i + 1;
    }
    if fields.data == [] {
      return None;
    }
    r := Some(SseEvent(fields.event, Join(fields.data)));
  }

  class HttpTransport {
    var stream: Option<seq<Item>>
    var buffered: string

    /** Everything received, of which the buffer is what follows position `taken`. */
    ghost var received: string
    ghost var taken: nat

    ghost predicate Valid()
      reads this
    {
      taken <= |received| && buffered == received[taken..]
    }

    /** What is still to come on an open connection. */
    ghost function Coming(): Feed
      requires Valid() && stream.Some?
      reads this
    {
      Yield(received, taken, stream.value)
    }

    constructor ()
      ensures Valid() && stream == None && buffered == "" && received == ""
    {
      stream, buffered, received, taken := None, "", "", 0;
    }

    method Send(response: seq<Item>) returns (ok: bool)
      requires Valid()
      modifies this`stream
      ensures Valid() && ok == old(stream).None?
      ensures stream == if ok then Some(response) else old(stream)
    {
      ok := stream.None?;
      if ok {
        stream := Some(response);
      }
    }

    /** Takes the first frame off the buffer, if there is one. */
    method TakeFrame() returns (frame: Option<string>)
      requires Valid()
      modifies this`buffered, this`taken
      ensures Valid()
      ensures match FrameEnd(received, old(taken))
        case Some((e, n)) =>
          && frame == Some(received[old(taken)..e]) && taken == e + n
          && FrameLines([], frame.value, 0) == FrameLines([], received[..e], old(taken))
        case None => frame == None && taken == old(taken)
    {
      FrameEndShift(received, taken, taken);
      var found := SseFrameEnd(buffered);
      if found.None? {
        return None;
      }
      var (end, len) := found.value;
      frame := Some(buffered[..end]);
      FrameLinesShift([], received[..taken + end], taken, taken);
      assert received[..taken + end][taken..] == frame.value == received[taken..taken + end];
      buffered := buffered[end..][len..];
      taken := taken + end + len;
      assert buffered == received[taken..];
    }

    /** Takes the first frame off the buffer and decodes it. */
    method NextFrame() returns (found: bool, event: Option<SseEvent>)
      requires Valid()
      modifies this`buffered, this`taken
      ensures Valid()
      ensures found <==> FrameEnd(received, old(taken)).Some?
      ensures if found then taken > old(taken) else taken == old(taken)
      ensures found && stream.Some? ==> (
        && old(Coming()).Events() == AsSeq(event) + Coming().Events()
        && old(Coming()).outcome == Coming().outcome)
    {
      ghost var at := taken;
      var frame := TakeFrame();
      found, event := frame.Some?, None;
      if found {
        event := ParseSseFrame(frame.value);
        if stream.Some? {
          EventsOfGroup(FrameLines([], received[..FrameEnd(received, at).value.0], at), Coming().frames);
        }
      }
    }

    /** Yields the next event of the connection, or tells how it ended. */
    method NextEvent() returns (r: Next)
      requires Valid()
      modifies this
      ensures Valid()
      ensures old(stream).Some? && r.Event? ==> (
        && stream.Some?
        && old(Coming()).Events() == [r.event] + Coming().Events()
        && old(Coming()).outcome == Coming().outcome)
      ensures old(stream).Some? && !r.Event? ==> old(Coming()).Events() == []
      ensures old(stream).Some? && r.End? ==>
        stream == None && buffered == "" && old(Coming()).outcome == Ended
      ensures old(stream).Some? && r.Error? ==>
        old(Coming()).outcome == if stream.None? then Partial else Broken
      ensures old(stream).None? ==> stream == None && !r.End?
    {
      while true
        invariant Valid()
        invariant old(stream).Some? ==> stream.Some? && SameFeed(old(Coming()), Coming())
        invariant old(stream).None? ==> stream == None
        decreases if stream.Some? then |stream.value| else 0, |received| - taken
      {
        var frame, event := NextFrame();
        if frame {
          if event.Some? {
            return Event(event.value);
          }
          continue;
        }
        if stream.None? {
          return Error("next_event called before send");
        }
        if stream.value == [] {
          stream := None;
          if buffered == "" {
            return End;
          }
          return Error("SSE stream ended in a partial frame");
        }
        var item := stream.value[0];
        stream := Some(stream.value[1..]);
        if item.Failure? {
          return Error("HTTP transport error");
        }
        buffered := buffered + item.bytes;
        received := received + item.bytes;
      }
    }

    method Cancel()
      modifies this
      ensures Valid() && stream == None && buffered == ""
    {
      stream, buffered, received, taken := None, "", "", 0;
    }
  }

  ghost predicate SameFeed(a: Feed, b: Feed) {
    a.Events() == b.Events() && a.outcome == b.outcome
  }
}

/** Events do not depend on how the bytes were cut into chunks. */
module SseLaws {
  import opened Common
  import opened SseFrames

  /** The bytes received before the connection ends or breaks. */
  function Received(items: seq<Item>): string {
    if items == [] || items[0].Failure? then "" else items[0].bytes + Received(items[1..])
  }

  /** A byte stream from `at` on read line by line, as the event-stream format defines it: CR, LF and
      CRLF each end a line, and a blank line closes the group of lines since the last blank one. */
  function Reference(lines: seq<string>, s: string, at: nat): seq<seq<string>>
    requires at <= |s|
    decreases |s| - at
  {
    var i := FirstEol(s, at);
    if i == |s| then []
    else
      var next := i + LineEndingLen(s, i).value;
      if i == at then Group(lines) + Reference([], s, next)
      else Reference(lines + [s[at..i]], s, next)
  }

  // ------------------------------------------------------------ reading on

  /** Lines gathered so far may only be followed by more of their frame. */
  ghost predicate MidFrame(lines: seq<string>, s: string, at: nat) {
    lines == [] || at >= |s| || !IsEol(s[at])
  }

  function Gathered(lines: seq<string>, line: string): seq<string> {
    if line == "" then lines else lines + [line]
  }

  /** Where the line after the one at `at` starts. */
  function NextLine(s: string, at: nat): (k: nat)
    requires at <= |s| && FirstEol(s, at) < |s|
    ensures FirstEol(s, at) < k <= |s|
  {
    FirstEol(s, at) + LineEndingLen(s, FirstEol(s, at)).value
  }

  lemma FirstEolAppend(s: string, t: string, at: nat)
    requires at <= |s| && FirstEol(s, at) < |s|
    ensures FirstEol(s + t, at) == FirstEol(s, at)
  {
    var i := FirstEol(s, at);
    assert (s + t)[i] == s[i];
    assert forall k | at <= k < i :: (s + t)[k] == s[k];
  }

  /** Reading one line that ends before the buffer does. */
  lemma ReadLine(lines: seq<string>, s: string, t: string, at: nat)
    requires MidFrame(lines, s, at) && at <= |s| && FirstEol(s, at) < |s| && NextLine(s, at) < |s|
    ensures Reference(lines, s + t, at)
      == Reference(Gathered(lines, s[at..FirstEol(s, at)]), s + t, NextLine(s, at))
  {
    var i := FirstEol(s, at);
    FirstEolAppend(s, t, at);
    assert LineEndingLen(s + t, i) == LineEndingLen(s, i);
    assert (s + t)[at..i] == s[at..i];
  }

  /** Reading a blank line, whose line ending may show only one of its two bytes in the buffer. */
  lemma ReadBlank(lines: seq<string>, s: string, t: string, at: nat)
    requires at < |s| && IsEol(s[at])
    ensures Reference(lines, s + t, at)
      == Group(lines) + Reference([], s + t, at + LineEndingLen(s, at).value)
  {
    var w := s + t;
    var n, m := LineEndingLen(s, at).value, LineEndingLen(w, at).value;
    assert FirstEol(w, at) == at;
    if n != m {
      assert at + 1 == |s| && w[at + 1] == '\n';
      assert FirstEol(w, at + 1) == at + 1;
    }
  }

  lemma {:induction false} FrameStartsHere(s: string, start: nat, e: nat, n: nat)
    requires FrameEnd(s, start) == Some((e, n))
    ensures LineEndingLen(s, e).Some? && LineEndingLen(s, e).value < n
    ensures LineEndingLen(s, e + LineEndingLen(s, e).value) == Some(n - LineEndingLen(s, e).value)
    decreases |s| - start
  {
    if start < e {
      FrameStartsHere(s, start + 1, e, n);
    }
  }

  /** Before the first frame end no two line endings are adjacent. */
  lemma {:induction false} NoFrameBefore(s: string, start: nat, i: nat)
    requires start <= i && i < |s| && IsEol(s[i])
    requires FrameEnd(s, start).Some? ==> i < FrameEnd(s, start).value.0
    ensures LineEndingLen(s, i + LineEndingLen(s, i).value).None?
    ensures FrameEnd(s, start) == FrameEnd(s, i + LineEndingLen(s, i).value)
    decreases i - start
  {
    if start < i {
      NoFrameBefore(s, start + 1, i);
    }
  }

  /** The first frame ends either with its first line or after a second, non-blank line has begun. */
  lemma FirstLineOf(s: string, at: nat, e: nat, n: nat)
    requires at <= |s| && FrameEnd(s, at) == Some((e, n))
    ensures FirstEol(s, at) <= e < |s| && NextLine(s, at) < |s|
    ensures FirstEol(s, at) == e ==> LineEndingLen(s, NextLine(s, at)) == Some(e + n - NextLine(s, at))
    ensures FirstEol(s, at) < e ==>
      NextLine(s, at) <= e && !IsEol(s[NextLine(s, at)]) && FrameEnd(s, NextLine(s, at)) == Some((e, n))
  {
    FrameStartsHere(s, at, e, n);
    var i := FirstEol(s, at);
    if i < e {
      NoFrameBefore(s, at, i);
    }
  }

  /** A frame that ends with its first line. */
  lemma LastLine(lines: seq<string>, s: string, t: string, at: nat, e: nat, n: nat)
    requires MidFrame(lines, s, at) && at <= |s| && FirstEol(s, at) == e < |s| && NextLine(s, at) < |s|
    requires LineEndingLen(s, NextLine(s, at)) == Some(e + n - NextLine(s, at))
    ensures Reference(lines, s + t, at)
      == Group(FrameLines(lines, s[..e], at)) + Reference([], s + t, e + n)
  {
    ReadLine(lines, s, t, at);
    ReadBlank(Gathered(lines, s[at..e]), s, t, NextLine(s, at));
    FrameLine(lines, s, at, e);
  }

  /** Taking the first frame off the buffer matches reading its lines, whatever follows. */
  lemma {:induction false} FrameIsReference(
      lines: seq<string>, s: string, t: string, at: nat, e: nat, n: nat)
    requires MidFrame(lines, s, at) && at <= |s| && FrameEnd(s, at) == Some((e, n))
    ensures Reference(lines, s + t, at)
      == Group(FrameLines(lines, s[..e], at)) + Reference([], s + t, e + n)
    decreases |s| - at
  {
    FirstLineOf(s, at, e, n);
    if FirstEol(s, at) == e {
      LastLine(lines, s, t, at, e, n);
    } else {
      var k, more := NextLine(s, at), Gathered(lines, s[at..FirstEol(s, at)]);
      FrameIsReference(more, s, t, k, e, n);
      ReadLine(lines, s, t, at);
      FrameLine(lines, s, at, e);
    }
  }

  /** Parsing a frame passes its first line and the line ending after it. */
  lemma FrameLine(lines: seq<string>, s: string, at: nat, e: nat)
    requires at <= e < |s| && FirstEol(s, at) <= e
    requires FirstEol(s, at) < e ==> NextLine(s, at) <= e
    ensures var i := FirstEol(s, at);
      FrameLines(lines, s[..e], at) ==
        if i == e then Gathered(lines, s[at..i])
        else FrameLines(Gathered(lines, s[at..i]), s[..e], NextLine(s, at))
  {
    var i, frame := FirstEol(s, at), s[..e];
    assert forall j | 0 <= j < e :: frame[j] == s[j];
    assert FirstEol(frame, at) == i;
    assert frame[at..i] == s[at..i];
    if i < e && NextLine(s, at) == i + 2 {
      assert FirstEol(frame, i + 1) == i + 1;
    }
  }

  /** Without a frame end nothing is dispatched. */
  lemma {:induction false} NoFrameNoEvents(lines: seq<string>, s: string, at: nat)
    requires at <= |s| && MidFrame(lines, s, at) && FrameEnd(s, at).None?
    ensures Reference(lines, s, at) == []
    decreases |s| - at
  {
    var i := FirstEol(s, at);
    if i < |s| {
      NoFrameBefore(s, at, i);
      NoFrameNoEvents(Gathered(lines, s[at..i]), s, NextLine(s, at));
    }
  }

  lemma {:induction false} YieldIsReference(s: string, at: nat, items: seq<Item>)
    requires at <= |s|
    ensures Yield(s, at, items).frames == Reference([], s + Received(items), at)
    decreases |items|, |s| - at
  {
    var found := FrameEnd(s, at);
    if found.Some? {
      YieldIsReference(s, found.value.0 + found.value.1, items);
      FrameStep(s, at, items, found.value.0, found.value.1);
    } else if items == [] || items[0].Failure? {
      assert s + Received(items) == s;
      NoFrameNoEvents([], s, at);
    } else {
      YieldIsReference(s + items[0].bytes, at, items[1..]);
      assert s + items[0].bytes + Received(items[1..]) == s + Received(items);
    }
  }

  lemma FrameStep(s: string, at: nat, items: seq<Item>, e: nat, n: nat)
    requires at <= |s| && FrameEnd(s, at) == Some((e, n))
    requires Yield(s, e + n, items).frames == Reference([], s + Received(items), e + n)
    ensures Yield(s, at, items).frames == Reference([], s + Received(items), at)
  {
    FrameIsReference([], s, Received(items), at, e, n);
  }

  /** Whatever the chunks, the events are those of the bytes received, read line by line; so two ways
      of cutting the same bytes yield the same events. */
  lemma ChunkingIsIrrelevant(items: seq<Item>)
    ensures Yield("", 0, items).Events() == EventsOf(Reference([], Received(items), 0))
  {
    YieldIsReference("", 0, items);
    assert "" + Received(items) == Received(items);
  }
}
