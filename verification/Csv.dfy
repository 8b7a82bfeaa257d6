/** The comma-separated record reader, and the printing it undoes. */
module Csv {
  import opened Common

  datatype Reader = Reader(
    records: seq<seq<string>>, record: seq<string>, field: string, inQuotes: bool)

  const START := Reader([], [], "", false)

  function EndField(r: Reader): Reader {
    r.(record := r.record + [r.field], field := "")
  }

  function EndRecord(r: Reader): Reader {
    var e := EndField(r);
    e.(records := e.records + [e.record], record := [])
  }

  /** Reads the characters of `s`. */
  function Read(r: Reader, s: string): Reader
    decreases |s|
  {
    if s == "" then r
    else if s[0] == '"' then
      if !r.inQuotes then Read(r.(inQuotes := true), s[1..])
      else if |s| > 1 && s[1] == '"' then Read(r.(field := r.field + "\""), s[2..])
      else Read(r.(inQuotes := false), s[1..])
    else if s[0] == ',' && !r.inQuotes then Read(EndField(r), s[1..])
    else if s[0] == '\r' && !r.inQuotes then Read(r, s[1..])
    else if s[0] == '\n' && !r.inQuotes then Read(EndRecord(r), s[1..])
    else Read(r.(field := r.field + [s[0]]), s[1..])
  }

  /** The records at the end of the text; an unfinished one counts unless it is empty. */
  function Records(r: Reader): seq<seq<string>> {
    if r.field != "" || r.record != [] then r.records + [r.record + [r.field]] else r.records
  }

  method ParseRecords(text: string) returns (records: seq<seq<string>>)
    ensures records == Records(Read(START, text))
  {
    records := [];
    var record: seq<string> := [];
    var field := "";
    var inQuotes := false;
    var i := 0;
    while i < |text|
      invariant 0 <= i <= |text|
      invariant Read(Reader(records, record, field, inQuotes), text[i..]) == Read(START, text)
    {
      var c := text[i];
      assert text[i..][1..] == text[i + 1..];
      if c == '"' && inQuotes {
        if i + 1 < |text| && text[i + 1] == '"' {
          assert text[i..][2..] == text[i + 2..];
          i := i + 1;
          field := field + "\"";
        } else {
          inQuotes := false;
        }
      } else if c == '"' {
        inQuotes := true;
      } else if c == ',' && !inQuotes {
        record, field := record + [field], "";
      } else if c == '\r' && !inQuotes {
      } else if c == '\n' && !inQuotes {
        record, field := record + [field], "";
        records, record := records + [record], [];
      } else {
        field := field + [c];
      }
      i := i + 1;
    }
    assert text[i..] == "";
    if field != "" || record != [] {
      record := record + [field];
      records := records + [record];
    }
  }

  // --------------------------------------------------------------- printing

  /** A field with the choice of writing it quoted. */
  datatype Cell = Cell(value: string, quoted: bool)

  /** A record with the choice of ending it in CRLF. */
  datatype Row = Row(cells: seq<Cell>, crlf: bool)

  predicate Special(c: char) { c == '"' || c == ',' || c == '\r' || c == '\n' }

  /** A field may go unquoted only if it has no special character. */
  ghost predicate Printable(rows: seq<Row>) {
    forall i | 0 <= i < |rows| ::
      rows[i].cells != [] && forall j | 0 <= j < |rows[i].cells| :: PrintableCell(rows[i].cells[j])
  }

  ghost predicate PrintableCell(c: Cell) {
    c.quoted || forall k | 0 <= k < |c.value| :: !Special(c.value[k])
  }

  function Doubled(s: string): string {
    if s == "" then "" else (if s[0] == '"' then "\"\"" else [s[0]]) + Doubled(s[1..])
  }

  function PrintCell(c: Cell): string {
    if c.quoted then "\"" + Doubled(c.value) + "\"" else c.value
  }

  function PrintCells(cells: seq<Cell>): string {
    if cells == [] then ""
    else if |cells| == 1 then PrintCell(cells[0])
    else PrintCell(cells[0]) + "," + PrintCells(cells[1..])
  }

  function LineEnd(row: Row): string { if row.crlf then "\r\n" else "\n" }

  function Print(rows: seq<Row>): string {
    if rows == [] then "" else PrintCells(rows[0].cells) + LineEnd(rows[0]) + Print(rows[1..])
  }

  function Values(cells: seq<Cell>): seq<string> {
    seq(|cells|, i requires 0 <= i < |cells| => cells[i].value)
  }

  function Contents(rows: seq<Row>): seq<seq<string>> {
    seq(|rows|, i requires 0 <= i < |rows| => Values(rows[i].cells))
  }

  // ------------------------------------------------------ parsing undoes it

  lemma {:induction false} ReadDoubled(r: Reader, v: string, rest: string)
    requires r.inQuotes && (rest == "" || rest[0] != '"')
    ensures Read(r, Doubled(v) + "\"" + rest)
      == Read(r.(field := r.field + v, inQuotes := false), rest)
    decreases |v|
  {
    var s := Doubled(v) + "\"" + rest;
    if v == "" {
      assert s == "\"" + rest && s[1..] == rest;
      assert r.field + v == r.field;
    } else {
      var tail := Doubled(v[1..]) + "\"" + rest;
      var next := r.(field := r.field + [v[0]]);
      assert next.field + v[1..] == r.field + v;
      if v[0] == '"' {
        assert s == "\"\"" + tail && s[2..] == tail && [v[0]] == "\"";
      } else {
        assert s == [v[0]] + tail && s[1..] == tail;
      }
      assert Read(r, s) == Read(next, tail);
      ReadDoubled(next, v[1..], rest);
    }
  }

  lemma {:induction false} ReadPlain(r: Reader, v: string, rest: string)
    requires !r.inQuotes && forall k | 0 <= k < |v| :: !Special(v[k])
    ensures Read(r, v + rest) == Read(r.(field := r.field + v), rest)
    decreases |v|
  {
    if v == "" {
      assert v + rest == rest && r.field + v == r.field;
    } else {
      var next := r.(field := r.field + [v[0]]);
      assert (v + rest)[1..] == v[1..] + rest;
      assert next.field + v[1..] == r.field + v;
      ReadPlain(next, v[1..], rest);
    }
  }

  lemma ReadCell(r: Reader, c: Cell, rest: string)
    requires !r.inQuotes && PrintableCell(c) && (rest == "" || rest[0] != '"')
    ensures Read(r, PrintCell(c) + rest) == Read(r.(field := r.field + c.value), rest)
  {
    if c.quoted {
      var tail := Doubled(c.value) + "\"" + rest;
      assert PrintCell(c) + rest == "\"" + tail && ("\"" + tail)[1..] == tail;
      ReadDoubled(r.(inQuotes := true), c.value, rest);
    } else {
      ReadPlain(r, c.value, rest);
    }
  }

  /** The reader after the cells of a record: all but the last ended, the last still open. */
  function AfterCells(r: Reader, cells: seq<Cell>): Reader
    requires cells != []
  {
    r.(record := r.record + Values(cells[..|cells| - 1]), field := cells[|cells| - 1].value)
  }

  lemma AfterFirstCell(r: Reader, cells: seq<Cell>)
    requires |cells| > 1
    ensures AfterCells(r, cells) == AfterCells(r.(record := r.record + [cells[0].value]), cells[1..])
  {
    assert Values(cells[..|cells| - 1]) == [cells[0].value] + Values(cells[1..][..|cells| - 2]);
  }

  lemma AfterOnlyCell(r: Reader, c: Cell)
    requires r.field == ""
    ensures AfterCells(r, [c]) == r.(field := r.field + c.value)
  {
    assert Values([c][..0]) == [] && r.record + [] == r.record && r.field + c.value == c.value;
  }

  lemma {:induction false} ReadCells(r: Reader, cells: seq<Cell>, rest: string)
    requires r.field == "" && !r.inQuotes && cells != []
    requires forall j | 0 <= j < |cells| :: PrintableCell(cells[j])
    requires rest == "" || rest[0] != '"'
    ensures Read(r, PrintCells(cells) + rest) == Read(AfterCells(r, cells), rest)
    decreases |cells|
  {
    if |cells| == 1 {
      AfterOnlyCell(r, cells[0]);
      assert cells == [cells[0]];
      ReadCell(r, cells[0], rest);
    } else {
      var tail := PrintCells(cells[1..]) + rest;
      PrintedFirst(cells, rest, tail);
      ReadComma(r, cells[0], tail);
      AfterFirstCell(r, cells);
      ReadCells(r.(record := r.record + [cells[0].value]), cells[1..], rest);
    }
  }

  lemma PrintedFirst(cells: seq<Cell>, rest: string, tail: string)
    requires |cells| > 1 && tail == PrintCells(cells[1..]) + rest
    ensures PrintCells(cells) + rest == PrintCell(cells[0]) + ("," + tail)
  {
    var first, others := PrintCell(cells[0]), PrintCells(cells[1..]);
    assert PrintCells(cells) == first + "," + others;
    Associate(first, ",", others, rest);
  }

  lemma Associate(a: string, b: string, c: string, d: string)
    ensures a + b + c + d == a + (b + (c + d))
  {
  }

  lemma ReadComma(r: Reader, c: Cell, tail: string)
    requires r.field == "" && !r.inQuotes && PrintableCell(c)
    ensures Read(r, PrintCell(c) + ("," + tail)) == Read(r.(record := r.record + [c.value]), tail)
  {
    ReadCell(r, c, "," + tail);
    assert r.field + c.value == c.value;
    assert ("," + tail)[1..] == tail;
  }

  lemma ReadRow(r: Reader, row: Row, rest: string)
    requires r.field == "" && r.record == [] && !r.inQuotes && row.cells != []
    requires forall j | 0 <= j < |row.cells| :: PrintableCell(row.cells[j])
    ensures Read(r, PrintCells(row.cells) + LineEnd(row) + rest)
      == Read(r.(records := r.records + [Values(row.cells)]), rest)
  {
    var cells, tail := row.cells, LineEnd(row) + rest;
    assert PrintCells(cells) + LineEnd(row) + rest == PrintCells(cells) + tail;
    ReadCells(r, cells, tail);
    CellsEnded(r, cells);
    ReadLineEnd(AfterCells(r, cells), row, rest);
  }

  /** Ending the record makes one of its cells. */
  lemma CellsEnded(r: Reader, cells: seq<Cell>)
    requires r.field == "" && r.record == [] && cells != []
    ensures EndRecord(AfterCells(r, cells)) == r.(records := r.records + [Values(cells)])
  {
    var n := |cells| - 1;
    assert r.record + Values(cells[..n]) + [cells[n].value] == Values(cells);
  }

  lemma ReadLineEnd(r: Reader, row: Row, rest: string)
    requires !r.inQuotes
    ensures Read(r, LineEnd(row) + rest) == Read(EndRecord(r), rest)
  {
    var line := "\n" + rest;
    assert line[1..] == rest;
    if row.crlf {
      assert LineEnd(row) + rest == "\r" + line && ("\r" + line)[1..] == line;
    }
  }

  lemma {:induction false} ReadRows(r: Reader, rows: seq<Row>, rest: string)
    requires r.field == "" && r.record == [] && !r.inQuotes && Printable(rows)
    ensures Read(r, Print(rows) + rest) == Read(r.(records := r.records + Contents(rows)), rest)
    decreases |rows|
  {
    if rows == [] {
      assert Print(rows) + rest == rest && r.records + Contents(rows) == r.records;
    } else {
      var tail := Print(rows[1..]) + rest;
      assert Print(rows) + rest == PrintCells(rows[0].cells) + LineEnd(rows[0]) + tail;
      ReadRow(r, rows[0], tail);
      var next := r.(records := r.records + [Values(rows[0].cells)]);
      assert Printable(rows[1..]);
      ReadRows(next, rows[1..], rest);
      assert next.records + Contents(rows[1..]) == r.records + Contents(rows);
    }
  }

  /** Parsing undoes printing, whichever fields are quoted and however lines end. */
  lemma ParsingUndoesPrinting(rows: seq<Row>)
    requires Printable(rows)
    ensures Records(Read(START, Print(rows))) == Contents(rows)
  {
    ReadRows(START, rows, "");
    assert Print(rows) + "" == Print(rows);
    assert [] + Contents(rows) == Contents(rows);
  }

  /** The line ending after the last record may be left out exactly when that record is not a single
      empty field. */
  lemma LastLineEndOptionalIff(rows: seq<Row>, last: Row)
    requires Printable(rows + [last])
    ensures Records(Read(START, Print(rows) + PrintCells(last.cells))) == Contents(rows + [last])
      <==> Values(last.cells) != [""]
  {
    var cells := last.cells;
    assert (rows + [last])[|rows|] == last && rows == (rows + [last])[..|rows|];
    ReadRows(START, rows, PrintCells(cells));
    ReadLast(START.(records := [] + Contents(rows)), cells);
    assert [] + Contents(rows) == Contents(rows);
    ContentsOneMore(rows, last);
  }

  lemma ContentsOneMore(rows: seq<Row>, last: Row)
    ensures Contents(rows + [last]) == Contents(rows) + [Values(last.cells)] != Contents(rows)
  {
    assert |Contents(rows + [last])| == |Contents(rows)| + 1;
  }

  lemma ReadLast(r: Reader, cells: seq<Cell>)
    requires r.field == "" && r.record == [] && !r.inQuotes && cells != []
    requires forall j | 0 <= j < |cells| :: PrintableCell(cells[j])
    ensures Records(Read(r, PrintCells(cells)))
      == if Values(cells) == [""] then r.records else r.records + [Values(cells)]
  {
    var n := |cells| - 1;
    ReadAll(r, cells);
    RecordsOpen(r, AfterCells(r, cells), Values(cells), n);
  }

  lemma ReadAll(r: Reader, cells: seq<Cell>)
    requires r.field == "" && !r.inQuotes && cells != []
    requires forall j | 0 <= j < |cells| :: PrintableCell(cells[j])
    ensures Read(r, PrintCells(cells)) == AfterCells(r, cells)
  {
    assert PrintCells(cells) + "" == PrintCells(cells);
    ReadCells(r, cells, "");
  }

  /** An open record with its last field counts unless that field is all it has and is empty. */
  lemma RecordsOpen(r: Reader, e: Reader, values: seq<string>, n: nat)
    requires |values| == n + 1 && e.records == r.records
    requires e.record == values[..n] && e.field == values[n]
    ensures Records(e) == if values == [""] then r.records else r.records + [values]
  {
    assert e.record + [e.field] == values;
    assert n == 0 ==> values == [e.field];
  }
}
