/** Writing server-sent events, and that reading them back gives what was written. */
module SsePrint {
  import opened Common
  import opened SseFrames
  import opened SseLaws

  /** How a field name and its value are separated. */
  datatype Separator = Tight | Spaced | Bare

  datatype Line = Field(name: string, separator: Separator, value: string) | Comment(text: string)

  datatype Ending = Lf | Cr | CrLf

  /** A line with its ending. */
  datatype Row = Row(line: Line, ending: Ending)

  /** Some lines and the blank line after them. */
  datatype Message = Message(rows: seq<Row>, blank: Ending)

  function Break(e: Ending): string {
    match e case Lf => "\n" case Cr => "\r" case CrLf => "\r\n"
  }

  function Text(l: Line): string {
    match l
    case Comment(text) => ":" + text
    case Field(name, separator, value) =>
      match separator
      case Tight => name + ":" + value
      case Spaced => name + ": " + value
      case Bare => name
  }

  function PrintRows(rows: seq<Row>): string {
    if rows == [] then "" else Text(rows[0].line) + Break(rows[0].ending) + PrintRows(rows[1..])
  }

  function Print(ms: seq<Message>): string {
    if ms == [] then "" else PrintRows(ms[0].rows) + Break(ms[0].blank) + Print(ms[1..])
  }

  predicate OneLine(s: string) { forall i | 0 <= i < |s| :: s[i] != '\r' && s[i] != '\n' }

  /** A name is not empty and has no colon; a value that is set off by the colon alone does not start with
      a space; a bare name has no value. */
  predicate Writable(l: Line) {
    match l
    case Comment(text) => OneLine(text)
    case Field(name, separator, value) =>
      && name != "" && OneLine(name) && (forall i | 0 <= i < |name| :: name[i] != ':')
      && OneLine(value)
      && (separator.Tight? ==> value == "" || value[0] != ' ')
      && (separator.Bare? ==> value == "")
  }

  /** A CR would merge with an LF right after it. */
  predicate Apart(e: Ending, next: Ending) { !(e.Cr? && next.Lf?) }

  predicate WritableMessage(m: Message) {
    && m.rows != []
    && (forall r | r in m.rows :: Writable(r.line))
    && Apart(m.rows[|m.rows| - 1].ending, m.blank)
  }

  // ------------------------------------------------------------- what it means

  /** The value of the last event field. */
  function EventOf(rows: seq<Row>): Option<string> {
    if rows == [] then None
    else
      var l := rows[|rows| - 1].line;
      if l.Field? && l.name == "event" then Some(l.value) else EventOf(rows[..|rows| - 1])
  }

  /** The values of the data fields, in order. */
  function DataOf(rows: seq<Row>): seq<string> {
    if rows == [] then []
    else
      var l := rows[|rows| - 1].line;
      DataOf(rows[..|rows| - 1]) + (if l.Field? && l.name == "data" then [l.value] else [])
  }

  /** The lines with a line feed between each two. */
  function Lines(data: seq<string>): string {
    if data == [] then ""
    else if |data| == 1 then data[0]
    else Lines(data[..|data| - 1]) + "\n" + data[|data| - 1]
  }

  /** A message with data is one event; any other is none. */
  function Meaning(ms: seq<Message>): seq<SseEvent> {
    if ms == [] then []
    else
      var data := DataOf(ms[0].rows);
      (if data == [] then [] else [SseEvent(EventOf(ms[0].rows), Lines(data))]) + Meaning(ms[1..])
  }

  // --------------------------------------------------------------- one line

  lemma {:induction false} IndexIs(s: string, c: char, i: nat)
    requires i <= |s| && (forall j | 0 <= j < i :: s[j] != c) && (i < |s| ==> s[i] == c)
    ensures IndexOf(s, c) == i
  {
    if i > 0 {
      IndexIs(s[1..], c, i - 1);
    }
  }

  lemma FieldIs(name: string, rest: string)
    requires forall i | 0 <= i < |name| :: name[i] != ':'
    ensures IndexOf(name + ":" + rest, ':') == |name|
    ensures (name + ":" + rest)[..|name|] == name && (name + ":" + rest)[|name| + 1..] == rest
  {
    IndexIs(name + ":" + rest, ':', |name|);
  }

  /** What a line adds to the fields of its message. */
  lemma LineMeans(f: Fields, l: Line)
    requires Writable(l)
    ensures AddLine(f, Text(l)) ==
      if l.Field? && l.name == "event" then f.(event := Some(l.value))
      else if l.Field? && l.name == "data" then f.(data := f.data + [l.value])
      else f
  {
    if l.Field? {
      match l.separator
      case Tight =>
        FieldIs(l.name, l.value);
      case Spaced =>
        assert l.name + ": " + l.value == l.name + ":" + (" " + l.value);
        FieldIs(l.name, " " + l.value);
      case Bare =>
        IndexIs(l.name, ':', |l.name|);
        assert l.name[..|l.name|] == l.name;
    }
  }

  function Texts(rows: seq<Row>): seq<string> {
    seq(|rows|, i requires 0 <= i < |rows| => Text(rows[i].line))
  }

  lemma GatherLast(lines: seq<string>, line: string)
    ensures Gather(lines + [line]) == AddLine(Gather(lines), line)
  {
    assert (lines + [line])[..|lines|] == lines;
  }

  lemma TextsLast(rows: seq<Row>, n: nat)
    requires n == |rows| - 1
    ensures Texts(rows) == Texts(rows[..n]) + [Text(rows[n].line)] && rows == rows[..n] + [rows[n]]
  {
  }

  lemma {:induction false} RowsMean(rows: seq<Row>)
    requires forall r | r in rows :: Writable(r.line)
    ensures Gather(Texts(rows)) == Fields(EventOf(rows), DataOf(rows))
  {
    if rows == [] {
      assert Texts(rows) == [];
    } else {
      var n := |rows| - 1;
      TextsLast(rows, n);
      RowsMean(rows[..n]);
      GatherLast(Texts(rows[..n]), Text(rows[n].line));
      LineMeans(Gather(Texts(rows[..n])), rows[n].line);
    }
  }

  lemma {:induction false} JoinIsLines(data: seq<string>)
    requires data != []
    ensures Join(data) == Lines(data)
  {
    if |data| > 1 {
      var n := |data| - 1;
      JoinIsLines(data[..n]);
      JoinLast(data[..n], data[n]);
      assert data == data[..n] + [data[n]];
    }
  }

  lemma {:induction false} JoinLast(data: seq<string>, last: string)
    requires data != []
    ensures Join(data + [last]) == Join(data) + "\n" + last
  {
    if |data| > 1 {
      assert (data + [last])[1..] == data[1..] + [last];
      JoinLast(data[1..], last);
      assert data[0] + "\n" + (Join(data[1..]) + "\n" + last) == data[0] + "\n" + Join(data[1..]) + "\n" + last;
    } else {
      assert (data + [last])[1..] == [last];
    }
  }

  /** A group of written lines dispatches what they mean. */
  lemma MessageMeans(m: Message, rest: seq<seq<string>>)
    requires WritableMessage(m)
    ensures var data := DataOf(m.rows);
      EventsOf(Group([] + Texts(m.rows)) + rest)
      == (if data == [] then [] else [SseEvent(EventOf(m.rows), Lines(data))]) + EventsOf(rest)
  {
    assert [] + Texts(m.rows) == Texts(m.rows);
    EventsOfGroup(Texts(m.rows), rest);
    RowsMean(m.rows);
    if DataOf(m.rows) != [] {
      JoinIsLines(DataOf(m.rows));
    }
  }

  // ------------------------------------------------------------ reading lines

  /** The groups of lines of what is left of a stream. */
  function Groups(lines: seq<string>, r: string): seq<seq<string>>
    decreases |r|
  {
    var i := FirstEol(r, 0);
    if i == |r| then []
    else
      var rest := r[i + LineEndingLen(r, i).value..];
      if i == 0 then Group(lines) + Groups([], rest) else Groups(lines + [r[..i]], rest)
  }

  lemma {:induction false} FirstEolIs(s: string, at: nat, i: nat)
    requires at <= i <= |s| && (i < |s| ==> IsEol(s[i])) && forall j | at <= j < i :: !IsEol(s[j])
    ensures FirstEol(s, at) == i
  {
  }

  lemma SuffixReads(s: string, at: nat, r: string, i: nat)
    requires at <= |s| && r == s[at..] && i == FirstEol(s, at)
    ensures FirstEol(r, 0) == i - at
    ensures i < |s| ==> LineEndingLen(r, i - at) == LineEndingLen(s, i)
  {
    assert forall j | at <= j < |s| :: r[j - at] == s[j];
    FirstEolIs(r, 0, i - at);
  }

  lemma SuffixParts(s: string, at: nat, r: string, i: nat, k: nat)
    requires at <= i <= k <= |s| && r == s[at..]
    ensures r[..i - at] == s[at..i] && r[k - at..] == s[k..]
  {
  }

  /** The lines gathered behind a line that starts at `at` and ends at `i`. */
  function Behind(lines: seq<string>, blank: bool, line: string): seq<string> {
    if blank then [] else lines + [line]
  }

  lemma GroupsStep(lines: seq<string>, r: string, i: nat, n: nat, more: seq<string>, rest: string)
    requires FirstEol(r, 0) == i < |r| && LineEndingLen(r, i) == Some(n)
    requires more == Behind(lines, i == 0, r[..i]) && rest == r[i + n..]
    ensures Groups(lines, r) == if i == 0 then Group(lines) + Groups(more, rest) else Groups(more, rest)
  {
  }

  lemma ReferenceStep(lines: seq<string>, s: string, at: nat, i: nat, n: nat, more: seq<string>)
    requires at <= |s| && FirstEol(s, at) == i < |s| && LineEndingLen(s, i) == Some(n)
    requires more == Behind(lines, i == at, s[at..i])
    ensures Reference(lines, s, at)
      == if i == at then Group(lines) + Reference(more, s, i + n) else Reference(more, s, i + n)
  {
  }

  lemma NothingLeft(lines: seq<string>, s: string, at: nat, r: string)
    requires at <= |s| && r == s[at..] && FirstEol(s, at) == |s|
    ensures Reference(lines, s, at) == [] == Groups(lines, r)
  {
    SuffixReads(s, at, r, |s|);
  }

  lemma StepAlike(
      lines: seq<string>, s: string, at: nat, r: string, i: nat, n: nat, more: seq<string>, rest: string)
    requires at <= |s| && r == s[at..] && FirstEol(s, at) == i < |s| && LineEndingLen(s, i) == Some(n)
    requires more == Behind(lines, i == at, s[at..i]) && rest == s[i + n..]
    requires Reference(more, s, i + n) == Groups(more, rest)
    ensures Reference(lines, s, at) == Groups(lines, r)
  {
    SuffixReads(s, at, r, i);
    SuffixParts(s, at, r, i, i + n);
    GroupsStep(lines, r, i - at, n, more, rest);
    ReferenceStep(lines, s, at, i, n, more);
  }

  lemma {:induction false} GroupsAreReference(lines: seq<string>, s: string, at: nat, r: string)
    requires at <= |s| && r == s[at..]
    ensures Reference(lines, s, at) == Groups(lines, r)
    decreases |s| - at
  {
    var i := FirstEol(s, at);
    if i == |s| {
      NothingLeft(lines, s, at, r);
    } else {
      var n := LineEndingLen(s, i).value;
      var more, rest := Behind(lines, i == at, s[at..i]), s[i + n..];
      GroupsAreReference(more, s, i + n, rest);
      StepAlike(lines, s, at, r, i, n, more, rest);
    }
  }

  lemma Parts(a: string, b: string, c: string)
    ensures var r := a + (b + c);
      && |r| == |a| + |b| + |c| && r[..|a|] == a && r[|a| + |b|..] == c
      && (forall j | 0 <= j < |a| :: r[j] == a[j])
      && (forall j | 0 <= j < |b| :: r[|a| + j] == b[j])
      && (c != "" ==> r[|a| + |b|] == c[0])
  {
  }

  /** One printed line at the head of what is left. */
  lemma ReadPrinted(lines: seq<string>, r: string, line: string, e: Ending, rest: string)
    requires r == line + (Break(e) + rest) && OneLine(line)
    requires e.Cr? ==> rest == "" || rest[0] != '\n'
    ensures Groups(lines, r) ==
      if line == "" then Group(lines) + Groups([], rest) else Groups(lines + [line], rest)
  {
    Parts(line, Break(e), rest);
    FirstEolIs(r, 0, |line|);
    assert LineEndingLen(r, |line|) == Some(|Break(e)|);
  }

  lemma TextIsOneLine(l: Line)
    requires Writable(l)
    ensures OneLine(Text(l)) && Text(l) != ""
  {
  }

  /** A printed message at the head of what is left closes one group of lines. */
  lemma {:induction false} ReadRows(
      lines: seq<string>, r: string, rows: seq<Row>, blank: Ending, rest: string)
    requires r == PrintRows(rows) + (Break(blank) + rest)
    requires forall x | x in rows :: Writable(x.line)
    requires rows != [] ==> Apart(rows[|rows| - 1].ending, blank)
    requires blank.Cr? ==> rest == "" || rest[0] != '\n'
    ensures Groups(lines, r) == Group(lines + Texts(rows)) + Groups([], rest)
    decreases |rows|
  {
    if rows == [] {
      assert r == "" + (Break(blank) + rest);
      ReadPrinted(lines, r, "", blank, rest);
      assert lines + Texts(rows) == lines;
    } else {
      var text, others := Text(rows[0].line), PrintRows(rows[1..]) + (Break(blank) + rest);
      ReadFirst(lines, r, rows, blank, rest, text, others);
      TailWritable(rows);
      ReadRows(lines + [text], others, rows[1..], blank, rest);
      TextsTail(lines, rows);
    }
  }

  lemma TextsTail(lines: seq<string>, rows: seq<Row>)
    requires rows != []
    ensures lines + [Text(rows[0].line)] + Texts(rows[1..]) == lines + Texts(rows)
  {
  }

  lemma ReadFirst(
      lines: seq<string>, r: string, rows: seq<Row>, blank: Ending, rest: string, text: string,
      others: string)
    requires rows != [] && r == PrintRows(rows) + (Break(blank) + rest)
    requires forall x | x in rows :: Writable(x.line)
    requires Apart(rows[|rows| - 1].ending, blank) && text == Text(rows[0].line)
    requires others == PrintRows(rows[1..]) + (Break(blank) + rest)
    ensures Groups(lines, r) == Groups(lines + [text], others)
  {
    assert rows[0] in rows;
    TextIsOneLine(rows[0].line);
    FirstRow(rows, Break(blank) + rest);
    StartsApart(rows, blank, rest);
    ReadPrinted(lines, r, text, rows[0].ending, others);
  }

  lemma TailWritable(rows: seq<Row>)
    requires rows != [] && forall r | r in rows :: Writable(r.line)
    ensures forall r | r in rows[1..] :: Writable(r.line)
    ensures rows[1..] != [] ==> rows[1..][|rows[1..]| - 1] == rows[|rows| - 1]
  {
  }

  lemma FirstRow(rows: seq<Row>, rest: string)
    requires rows != []
    ensures PrintRows(rows) + rest
      == Text(rows[0].line) + (Break(rows[0].ending) + (PrintRows(rows[1..]) + rest))
  {
    Regroup(Text(rows[0].line), Break(rows[0].ending), PrintRows(rows[1..]), rest);
  }

  lemma Regroup(a: string, b: string, c: string, d: string)
    ensures a + b + c + d == a + (b + (c + d))
  {
  }

  /** What follows the first row does not start with a line feed if that would merge with its ending. */
  lemma StartsApart(rows: seq<Row>, blank: Ending, rest: string)
    requires rows != [] && forall r | r in rows :: Writable(r.line)
    requires Apart(rows[|rows| - 1].ending, blank)
    ensures var others := PrintRows(rows[1..]) + (Break(blank) + rest);
      rows[0].ending.Cr? ==> others == "" || others[0] != '\n'
  {
    if |rows| > 1 {
      assert rows[1] in rows && rows[1..][0] == rows[1];
      TextIsOneLine(rows[1].line);
      FirstRow(rows[1..], Break(blank) + rest);
    } else {
      assert PrintRows(rows[1..]) == "";
    }
  }

  lemma FirstMessage(ms: seq<Message>)
    requires ms != []
    ensures Print(ms) == PrintRows(ms[0].rows) + (Break(ms[0].blank) + Print(ms[1..]))
  {
  }

  lemma PrintStarts(ms: seq<Message>)
    requires forall m | m in ms :: WritableMessage(m)
    ensures Print(ms) == "" || Print(ms)[0] != '\n'
  {
    if ms != [] {
      var rows := ms[0].rows;
      assert ms[0] in ms && rows[0] in rows;
      TextIsOneLine(rows[0].line);
      FirstMessage(ms);
      FirstRow(rows, Break(ms[0].blank) + Print(ms[1..]));
    }
  }

  lemma {:induction false} ReadMessages(ms: seq<Message>)
    requires forall m | m in ms :: WritableMessage(m)
    ensures EventsOf(Groups([], Print(ms))) == Meaning(ms)
    decreases |ms|
  {
    if ms != [] {
      var m := ms[0];
      assert m in ms;
      PrintStarts(ms[1..]);
      FirstMessage(ms);
      ReadRows([], Print(ms), m.rows, m.blank, Print(ms[1..]));
      ReadMessages(ms[1..]);
      MessageMeans(m, Groups([], Print(ms[1..])));
    }
  }

  /** Reading undoes writing: however the bytes of any messages are cut into chunks, the events read are
      those that the messages mean. */
  lemma ReadingUndoesWriting(ms: seq<Message>, items: seq<Item>)
    requires (forall m | m in ms :: WritableMessage(m)) && Received(items) == Print(ms)
    ensures Yield("", 0, items).Events() == Meaning(ms)
  {
    ChunkingIsIrrelevant(items);
    assert Print(ms)[0..] == Print(ms);
    GroupsAreReference([], Print(ms), 0, Print(ms));
    ReadMessages(ms);
  }
}
