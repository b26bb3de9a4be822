/** The CSV stream (packages/export/src/index.ts): fields, records and chunks, and the reader of RFC 4180,
    section 2, that undoes them however the rows were split into batches. */
module CsvStream {
  import opened Wrappers

  const QUOTE: char := '"'
  const CR: char := '\r'
  const LF: char := '\n'

  /** A query value; `Plain` carries what String prints, a date its ISO text or None when it is invalid. */
  datatype Value = Null | Date(iso: Option<string>) | NegativeZero | Plain(text: string)

  type Row = map<string, Value>

  datatype Batch = Batch(columns: seq<string>, rows: seq<Row>)

  datatype Options = Options(header: bool, delimiter: Option<string>, newline: Option<string>, nullValue: string)

  datatype Format = Format(delimiter: char, newline: string, nullValue: string)

  datatype Failure = CursorFailed | ColumnsChanged | InvalidDate

  ghost predicate Legal(f: Format) {
    f.delimiter !in {QUOTE, CR, LF} && (f.newline == [LF] || f.newline == [CR, LF])
  }

  /** The format these options ask for: a comma and CRLF unless they say otherwise. */
  ghost predicate Asked(o: Options, f: Format) {
    (if o.delimiter.Some? then o.delimiter.value == [f.delimiter] else f.delimiter == ',')
    && (if o.newline.Some? then o.newline.value == f.newline else f.newline == "\r\n")
    && f.nullValue == o.nullValue
  }

  /** The options, checked: one character other than a quote, CR or LF, and an LF or CRLF. */
  function FormatOf(o: Options): (r: Option<Format>)
    ensures r.Some? ==> Legal(r.value) && Asked(o, r.value)
    ensures r.None? <==> (o.delimiter.Some? && (|o.delimiter.value| != 1 || o.delimiter.value[0] in {'"', '\r', '\n'}))
                         || (o.newline.Some? && o.newline.value != "\n" && o.newline.value != "\r\n")
  {
    var delimiter := if o.delimiter.Some? then o.delimiter.value else ",";
    var newline := if o.newline.Some? then o.newline.value else [CR, LF];
    if |delimiter| != 1 || delimiter == [QUOTE] || delimiter == [CR] || delimiter == [LF] then None
    else if newline != [LF] && newline != [CR, LF] then None
    else Some(Format(delimiter[0], newline, o.nullValue))
  }

  // ── The printer ──────────────────────────────────────────────────────────────────────────────

  function Scalar(v: Value, nullValue: string): Option<string> {
    match v
    case Null => Some(nullValue)
    case Date(iso) => iso
    case NegativeZero => Some("-0")
    case Plain(text) => Some(text)
  }

  function Doubled(s: string): string {
    if s == "" then "" else (if s[0] == QUOTE then [QUOTE, QUOTE] else [s[0]]) + Doubled(s[1..])
  }

  predicate Special(s: string, d: char) { d in s || QUOTE in s || CR in s || LF in s }

  function Field(s: string, d: char): string {
    if Special(s, d) then [QUOTE] + Doubled(s) + [QUOTE] else s
  }

  function Join(parts: seq<string>, glue: string): string {
    if parts == [] then "" else if |parts| == 1 then parts[0] else parts[0] + glue + Join(parts[1..], glue)
  }

  function Fields(texts: seq<string>, d: char): seq<string> {
    seq(|texts|, i requires 0 <= i < |texts| => Field(texts[i], d))
  }

  function Record(texts: seq<string>, f: Format): string { Join(Fields(texts, f.delimiter), [f.delimiter]) }

  // ── The reader ───────────────────────────────────────────────────────────────────────────────

  datatype Piece = Piece(text: string, rest: string)

  datatype Line = Line(texts: seq<string>, rest: string)

  /** Characters up to a delimiter or a line break, none of them a quote. */
  function ReadBare(s: string, d: char): (r: Option<Piece>)
    ensures r.Some? ==> |r.value.rest| <= |s|
  {
    if s == "" || s[0] == d || s[0] == CR || s[0] == LF then Some(Piece("", s))
    else if s[0] == QUOTE then None
    else match ReadBare(s[1..], d) case None => None case Some(p) => Some(Piece([s[0]] + p.text, p.rest))
  }

  /** Characters up to the closing quote; a doubled quote stands for one. */
  function ReadQuoted(s: string): (r: Option<Piece>)
    ensures r.Some? ==> |r.value.rest| <= |s|
  {
    if s == "" then None
    else if s[0] != QUOTE then match ReadQuoted(s[1..]) case None => None
        case Some(p) => Some(Piece([s[0]] + p.text, p.rest))
    else if |s| >= 2 && s[1] == QUOTE then match ReadQuoted(s[2..]) case None => None
        case Some(p) => Some(Piece([QUOTE] + p.text, p.rest))
    else Some(Piece("", s[1..]))
  }

  function ReadField(s: string, d: char): (r: Option<Piece>)
    ensures r.Some? ==> |r.value.rest| <= |s|
  {
    if s != "" && s[0] == QUOTE then ReadQuoted(s[1..]) else ReadBare(s, d)
  }

  function ReadRecord(s: string, f: Format): (r: Option<Line>)
    requires Legal(f)
    ensures r.Some? ==> |r.value.rest| <= |s| && (s != "" ==> |r.value.rest| < |s|)
    decreases |s|
  {
    match ReadField(s, f.delimiter)
    case None => None
    case Some(p) =>
      if p.rest == "" then Some(Line([p.text], ""))
      else if p.rest[0] == f.delimiter then
        match ReadRecord(p.rest[1..], f) case None => None case Some(l) => Some(Line([p.text] + l.texts, l.rest))
      else if f.newline <= p.rest then Some(Line([p.text], p.rest[|f.newline|..]))
      else None
  }

  /** A whole file; the last record may lack its line break. */
  function Read(s: string, f: Format): Option<seq<seq<string>>>
    requires Legal(f)
    decreases |s|
  {
    if s == "" then Some([])
    else match ReadRecord(s, f)
         case None => None
         case Some(l) => match Read(l.rest, f) case None => None case Some(more) => Some([l.texts] + more)
  }

  // ── Reading undoes printing ──────────────────────────────────────────────────────────────────

  ghost predicate Stops(tail: string, d: char) { tail == "" || tail[0] == d || tail[0] == CR || tail[0] == LF }

  lemma {:induction false} QuotedReads(s: string, tail: string)
    requires tail == "" || tail[0] != QUOTE
    ensures ReadQuoted(Doubled(s) + [QUOTE] + tail) == Some(Piece(s, tail))
  {
    var text := Doubled(s) + [QUOTE] + tail;
    if s == "" {
      assert text[1..] == tail;
    } else {
      QuotedReads(s[1..], tail);
      var more := Doubled(s[1..]) + [QUOTE] + tail;
      var first := if s[0] == QUOTE then [QUOTE, QUOTE] else [s[0]];
      assert text == first + more;
      hide Doubled;
      assert text[|first|..] == more && [s[0]] + s[1..] == s;
    }
  }

  lemma {:induction false} BareReads(s: string, d: char, tail: string)
    requires !Special(s, d) && Stops(tail, d)
    ensures ReadBare(s + tail, d) == Some(Piece(s, tail))
  {
    if s == "" { assert s + tail == tail; } else {
      assert (s + tail)[1..] == s[1..] + tail;
      BareReads(s[1..], d, tail);
      assert [s[0]] + s[1..] == s;
    }
  }

  lemma FieldReads(s: string, d: char, tail: string)
    requires d != QUOTE && Stops(tail, d)
    ensures ReadField(Field(s, d) + tail, d) == Some(Piece(s, tail))
  {
    if Special(s, d) {
      QuotedReads(s, tail);
      var body := Doubled(s) + [QUOTE] + tail;
      assert Field(s, d) + tail == [QUOTE] + body;
      ReadsQuoted(body, d);
    } else {
      BareReads(s, d, tail);
      ReadsBare(s, d, tail);
    }
  }

  lemma ReadsQuoted(body: string, d: char)
    ensures ReadField([QUOTE] + body, d) == ReadQuoted(body)
  {
    hide ReadQuoted;
    assert ([QUOTE] + body)[1..] == body;
  }

  lemma ReadsBare(s: string, d: char, tail: string)
    requires !Special(s, d) && d != QUOTE && Stops(tail, d)
    ensures ReadField(s + tail, d) == ReadBare(s + tail, d)
  {
    hide ReadQuoted, ReadBare;
    if s != "" { assert s[0] in s; }
  }

  /** A record of no fields prints as an empty line, which reads as one empty field. */
  function Seen(texts: seq<string>): seq<string> { if texts == [] then [""] else texts }

  lemma {:induction false} RecordReads(texts: seq<string>, f: Format, tail: string)
    requires Legal(f)
    ensures ReadRecord(Record(texts, f) + f.newline + tail, f) == Some(Line(Seen(texts), tail))
    decreases |texts|
  {
    if |texts| <= 1 {
      LastFieldReads(Seen(texts)[0], f, tail);
      assert Record(texts, f) == Field(Seen(texts)[0], f.delimiter) by { FieldEmpty(f.delimiter); }
      assert [Seen(texts)[0]] == Seen(texts);
    } else {
      RecordReads(texts[1..], f, tail);
      RecordSplits(texts, f);
      FieldThenReads(texts[0], f, Record(texts[1..], f) + f.newline + tail);
      hide Record, Field, ReadRecord, Legal;
      Regroup(Field(texts[0], f.delimiter), [f.delimiter], Record(texts[1..], f), f.newline, tail);
      assert [texts[0]] + texts[1..] == texts;
    }
  }

  lemma Regroup(a: string, b: string, c: string, d: string, e: string)
    ensures a + b + c + d + e == a + (b + (c + d + e))
  {
  }

  lemma RecordSplits(texts: seq<string>, f: Format)
    requires |texts| > 1
    ensures Record(texts, f) == Field(texts[0], f.delimiter) + [f.delimiter] + Record(texts[1..], f)
  {
    assert Fields(texts, f.delimiter)[1..] == Fields(texts[1..], f.delimiter);
  }

  lemma FieldThenReads(s: string, f: Format, more: string)
    requires Legal(f)
    ensures ReadRecord(Field(s, f.delimiter) + ([f.delimiter] + more), f)
         == match ReadRecord(more, f) case None => None case Some(l) => Some(Line([s] + l.texts, l.rest))
  {
    var rest := [f.delimiter] + more;
    FieldReads(s, f.delimiter, rest);
    hide Field, ReadField;
    assert rest[1..] == more;
  }

  lemma FieldEmpty(d: char)
    ensures Field("", d) == ""
  {
  }

  lemma LastFieldReads(s: string, f: Format, tail: string)
    requires Legal(f)
    ensures ReadRecord(Field(s, f.delimiter) + f.newline + tail, f) == Some(Line([s], tail))
  {
    var line := f.newline + tail;
    assert Field(s, f.delimiter) + f.newline + tail == Field(s, f.delimiter) + line;
    FieldReads(s, f.delimiter, line);
    hide Field, ReadField;
    assert line[|f.newline|..] == tail;
  }

  /** Records, each ended by the newline. */
  function Lines(records: seq<seq<string>>, f: Format): string {
    if records == [] then "" else Record(records[0], f) + f.newline + Lines(records[1..], f)
  }

  function SeenAll(records: seq<seq<string>>): seq<seq<string>> {
    seq(|records|, i requires 0 <= i < |records| => Seen(records[i]))
  }

  lemma {:induction false} LinesRead(records: seq<seq<string>>, f: Format)
    requires Legal(f)
    ensures Read(Lines(records, f), f) == Some(SeenAll(records))
  {
    if records == [] { assert SeenAll(records) == []; } else {
      RecordReads(records[0], f, Lines(records[1..], f));
      assert Lines(records, f) == Record(records[0], f) + f.newline + Lines(records[1..], f) != "";
      LinesRead(records[1..], f);
      var text := Lines(records, f);
      assert ReadRecord(text, f) == Some(Line(Seen(records[0]), Lines(records[1..], f)));
      assert [Seen(records[0])] + SeenAll(records[1..]) == SeenAll(records);
    }
  }

  lemma {:induction false} LinesJoin(a: seq<seq<string>>, b: seq<seq<string>>, f: Format)
    ensures Lines(a + b, f) == Lines(a, f) + Lines(b, f)
  {
    if a == [] { assert a + b == b; } else {
      LinesJoin(a[1..], b, f);
      hide Record;
      assert (a + b)[1..] == a[1..] + b;
      Gathers(Record(a[0], f) + f.newline, Lines(a[1..], f), Lines(b, f));
    }
  }

  // ── The stream ───────────────────────────────────────────────────────────────────────────────

  datatype State = State(columns: Option<seq<string>>, headerPending: bool)

  datatype Encoded = Text(text: string) | Bad(failure: Failure)

  datatype End = Closed | Failed(failure: Failure)

  /** What a reader pulling to the end is given. */
  datatype Stream = Stream(chunks: seq<string>, end: End)

  function ValueAt(row: Row, name: string): Value { if name in row then row[name] else Null }

  ghost predicate Printable(b: Batch) {
    forall i :: 0 <= i < |b.rows| ==> PrintableRow(b.rows[i], b.columns)
  }

  ghost predicate PrintableRow(row: Row, columns: seq<string>) {
    forall j :: 0 <= j < |columns| ==> Scalar(ValueAt(row, columns[j]), "").Some?
  }

  function Texts(row: Row, columns: seq<string>, nullValue: string): seq<string> {
    seq(|columns|, i requires 0 <= i < |columns| =>
      match Scalar(ValueAt(row, columns[i]), nullValue) case Some(text) => text case None => "")
  }

  function RowsOf(rows: seq<Row>, columns: seq<string>, nullValue: string): seq<seq<string>> {
    seq(|rows|, i requires 0 <= i < |rows| => Texts(rows[i], columns, nullValue))
  }

  function HeaderOf(st: State, b: Batch): seq<seq<string>> { if st.headerPending then [b.columns] else [] }

  ghost predicate Fits(st: State, b: Batch) { st.columns == None || st.columns == Some(b.columns) }

  ghost function EncodingOf(st: State, b: Batch, f: Format): Encoded {
    if !Fits(st, b) then Bad(ColumnsChanged)
    else if !Printable(b) then Bad(InvalidDate)
    else Text(Lines(HeaderOf(st, b) + RowsOf(b.rows, b.columns, f.nullValue), f))
  }

  /** The chunks and the end for the batches still to come; `broken` when the cursor throws after them. */
  ghost function StreamOf(st: State, batches: seq<Batch>, broken: bool, f: Format): Stream
    decreases |batches|
  {
    if batches == [] then Stream([], if broken then Failed(CursorFailed) else Closed)
    else match EncodingOf(st, batches[0], f)
         case Bad(failure) => Stream([], Failed(failure))
         case Text(text) =>
           var rest := StreamOf(State(Some(batches[0].columns), false), batches[1..], broken, f);
           if text == "" then rest else rest.(chunks := [text] + rest.chunks)
  }

  /** The closure state of streamCsv and textStream over one cursor. */
  class CsvStreamer {
    const format: Format
    var columns: Option<seq<string>>
    var headerPending: bool
    var batches: seq<Batch>
    var broken: bool
    var finished: bool
    var returned: bool

    constructor (format: Format, header: bool, batches: seq<Batch>, broken: bool)
      ensures this.format == format && !finished && !returned
      ensures Left() == StreamOf(State(None, header), batches, broken, format)
    {
      this.format := format;
      columns, headerPending := None, header;
      this.batches, this.broken := batches, broken;
      finished, returned := false, false;
    }

    ghost function Left(): Stream
      reads this
    {
      StreamOf(State(columns, headerPending), batches, broken, format)
    }

    method EncodeRow(row: Row, columns: seq<string>) returns (r: Option<seq<string>>)
      ensures r == if PrintableRow(row, columns) then Some(Texts(row, columns, format.nullValue)) else None
    {
      var texts: seq<string> := [];
      for j := 0 to |columns|
        invariant texts == Texts(row, columns, format.nullValue)[..j]
        invariant forall k :: 0 <= k < j ==> Scalar(ValueAt(row, columns[k]), "").Some?
      {
        var text := Scalar(ValueAt(row, columns[j]), format.nullValue);
        if text == None { return None; }
        texts := texts + [text.value];
      }
      assert texts == Texts(row, columns, format.nullValue);
      return Some(texts);
    }

    method Encode(b: Batch) returns (r: Encoded)
      modifies this`columns, this`headerPending
      ensures r == EncodingOf(old(State(columns, headerPending)), b, format)
      ensures r.Text? ==> columns == Some(b.columns) && !headerPending
    {
      hide Record, Lines, Join, PrintableRow, Texts, Legal;
      if columns == None {
        columns := Some(b.columns);
      } else if columns.value != b.columns {
        return Bad(ColumnsChanged);
      }
      var records: seq<string> := [];
      ghost var done: seq<seq<string>> := if headerPending then [b.columns] else [];
      if headerPending {
        headerPending := false;
        records := [Record(b.columns, format)];
      }
      ghost var header := done;
      for i := 0 to |b.rows|
        invariant !headerPending && columns == Some(b.columns)
        invariant done == header + RowsOf(b.rows[..i], b.columns, format.nullValue)
        invariant records == Printed(done, format)
        invariant forall k :: 0 <= k < i ==> PrintableRow(b.rows[k], b.columns)
      {
        var texts := EncodeRow(b.rows[i], b.columns);
        if texts == None { return Bad(InvalidDate); }
        RowsGrow(b.rows, i, b.columns, format.nullValue);
        PrintedGrows(done, texts.value, format);
        records := records + [Record(texts.value, format)];
        done := done + [texts.value];
      }
      assert b.rows[..|b.rows|] == b.rows;
      JoinedLines(done, format);
      r := Text(if |records| == 0 then "" else Join(records, format.newline) + format.newline);
    }

    /** Gives the reader the next chunk or the end; batches that print nothing are passed over. */
    method Pull() returns (chunk: Option<string>, end: Option<End>)
      modifies this
      ensures old(finished) ==> chunk == None && end == None && finished && returned == old(returned)
      ensures !old(finished) && old(Left()).chunks == []
              ==> chunk == None && end == Some(old(Left()).end) && finished
                  && returned == (old(returned) || old(Left()).end.Failed?)
      ensures !old(finished) && old(Left()).chunks != []
              ==> chunk == Some(old(Left()).chunks[0]) && end == None && !finished && returned == old(returned)
                  && Left() == old(Left()).(chunks := old(Left()).chunks[1..])
    {
      if finished { return None, None; }
      while true
        invariant !finished && returned == old(returned) && Left() == old(Left())
        decreases |batches|
      {
        if batches == [] {
          finished := true;
          if broken {
            returned := true;
            return None, Some(Failed(CursorFailed));
          }
          return None, Some(Closed);
        }
        var next := batches[0];
        var encoded := Encode(next);
        batches := batches[1..];
        match encoded
        case Bad(failure) =>
          finished, returned := true, true;
          return None, Some(Failed(failure));
        case Text(text) =>
          if text != "" { return Some(text), None; }
      }
    }

    method Cancel()
      modifies this
      ensures finished && returned
    {
      finished, returned := true, true;
    }
  }

  function Printed(records: seq<seq<string>>, f: Format): seq<string> {
    seq(|records|, i requires 0 <= i < |records| => Record(records[i], f))
  }

  lemma PrintedGrows(done: seq<seq<string>>, texts: seq<string>, f: Format)
    ensures Printed(done + [texts], f) == Printed(done, f) + [Record(texts, f)]
  {
    hide Record;
  }

  lemma RowsGrow(rows: seq<Row>, i: nat, columns: seq<string>, nullValue: string)
    requires i < |rows|
    ensures RowsOf(rows[..i + 1], columns, nullValue) == RowsOf(rows[..i], columns, nullValue)
        + [Texts(rows[i], columns, nullValue)]
  {
  }

  /** Joining with newlines and adding one ends every record with a newline. */
  lemma {:induction false} JoinedLines(records: seq<seq<string>>, f: Format)
    ensures Lines(records, f) == if records == [] then "" else Join(Printed(records, f), f.newline) + f.newline
  {
    if records != [] {
      JoinedLines(records[1..], f);
      assert Printed(records, f)[1..] == Printed(records[1..], f);
    }
  }

  // ── The whole stream reads back ──────────────────────────────────────────────────────────────

  function Flat(chunks: seq<string>): string { if chunks == [] then "" else chunks[0] + Flat(chunks[1..]) }

  /** How many batches are exported before the first that changes the columns or holds an invalid date. */
  ghost function Sound(st: State, batches: seq<Batch>): (n: nat)
    ensures n <= |batches|
    decreases |batches|
  {
    if batches == [] || !Fits(st, batches[0]) || !Printable(batches[0]) then 0
    else 1 + Sound(State(Some(batches[0].columns), false), batches[1..])
  }

  function AllRows(batches: seq<Batch>, nullValue: string): seq<seq<string>> {
    if batches == [] then []
    else RowsOf(batches[0].rows, batches[0].columns, nullValue) + AllRows(batches[1..], nullValue)
  }

  function Table(st: State, batches: seq<Batch>, nullValue: string): seq<seq<string>> {
    (if batches == [] then [] else HeaderOf(st, batches[0])) + AllRows(batches, nullValue)
  }

  function EndOf(batches: seq<Batch>, n: nat, broken: bool, columns: Option<seq<string>>): End
    requires n <= |batches|
  {
    if n == |batches| then (if broken then Failed(CursorFailed) else Closed)
    else if columns != None && columns.value != batches[n].columns then Failed(ColumnsChanged)
    else Failed(InvalidDate)
  }

  lemma {:induction false} StreamPrints(st: State, batches: seq<Batch>, broken: bool, f: Format)
    ensures var n, s := Sound(st, batches), StreamOf(st, batches, broken, f);
            Flat(s.chunks) == Lines(Table(st, batches[..n], f.nullValue), f)
            && "" !in s.chunks
            && s.end == EndOf(batches, n, broken, if n > 0 then Some(batches[0].columns) else st.columns)
    decreases |batches|
  {
    if batches != [] && Fits(st, batches[0]) && Printable(batches[0]) {
      StreamPrints(State(Some(batches[0].columns), false), batches[1..], broken, f);
      PrintsOneMore(st, batches, broken, f);
    }
  }

  lemma PrintsOneMore(st: State, batches: seq<Batch>, broken: bool, f: Format)
    requires batches != [] && Fits(st, batches[0]) && Printable(batches[0])
    requires var later := State(Some(batches[0].columns), false);
             var n, s := Sound(later, batches[1..]), StreamOf(later, batches[1..], broken, f);
             Flat(s.chunks) == Lines(Table(later, batches[1..][..n], f.nullValue), f)
             && "" !in s.chunks
             && s.end == EndOf(batches[1..], n, broken, if n > 0 then Some(batches[1..][0].columns) else later.columns)
    ensures var n, s := Sound(st, batches), StreamOf(st, batches, broken, f);
            Flat(s.chunks) == Lines(Table(st, batches[..n], f.nullValue), f)
            && "" !in s.chunks && s.end == EndOf(batches, n, broken, Some(batches[0].columns))
  {
    hide StreamOf, Lines, Table, Flat, Printable, AllRows, Fits;
    var b, later := batches[0], State(Some(batches[0].columns), false);
    StreamSplits(st, batches, broken, f);
    FirstLater(later, batches[1..]);
    var n := Sound(later, batches[1..]);
    var more := batches[1..][..n];
    assert batches[..n + 1] == [b] + more;
    TableSplits(st, b, more, f.nullValue);
    LinesJoin(OwnOf(st, b, f), AllRows(more, f.nullValue), f);
    assert OwnOf(st, b, f) + AllRows(more, f.nullValue) == Table(st, [b] + more, f.nullValue);
  }

  lemma FirstLater(later: State, batches: seq<Batch>)
    ensures Sound(later, batches) > 0 && later.columns.Some? ==> later.columns == Some(batches[0].columns)
  {
  }

  function OwnOf(st: State, b: Batch, f: Format): seq<seq<string>> {
    HeaderOf(st, b) + RowsOf(b.rows, b.columns, f.nullValue)
  }

  lemma StreamSplits(st: State, batches: seq<Batch>, broken: bool, f: Format)
    requires batches != [] && Fits(st, batches[0]) && Printable(batches[0])
    ensures var s, rest := StreamOf(st, batches, broken, f),
        StreamOf(State(Some(batches[0].columns), false), batches[1..], broken, f);
            Flat(s.chunks) == Lines(OwnOf(st, batches[0], f), f) + Flat(rest.chunks)
            && s.end == rest.end
            && ("" in s.chunks <==> "" in rest.chunks)
  {
    var text := Lines(OwnOf(st, batches[0], f), f);
    var rest := StreamOf(State(Some(batches[0].columns), false), batches[1..], broken, f);
    assert EncodingOf(st, batches[0], f) == Text(text);
    hide Lines, OwnOf, Printable;
    assert ([text] + rest.chunks)[1..] == rest.chunks;
  }

  lemma TableSplits(st: State, b: Batch, more: seq<Batch>, nullValue: string)
    ensures Table(st, [b] + more, nullValue) == (HeaderOf(st, b) + RowsOf(b.rows, b.columns, nullValue))
        + AllRows(more, nullValue)
    ensures Table(State(Some(b.columns), false), more, nullValue) == AllRows(more, nullValue)
  {
    assert ([b] + more)[1..] == more;
  }

  /** Sound is the longest run of printable batches with one list of columns. */
  lemma {:induction false} SoundColumns(st: State, batches: seq<Batch>)
    ensures var n := Sound(st, batches);
            (forall i :: 0 <= i < n ==> Printable(batches[i]) && batches[i].columns == batches[0].columns)
            && (n > 0 ==> Fits(st, batches[0]))
            && (n < |batches| ==> !Printable(batches[n])
                                  || (if n > 0 then batches[n].columns != batches[0].columns
                                     else !Fits(st, batches[n])))
    decreases |batches|
  {
    if batches != [] && Fits(st, batches[0]) && Printable(batches[0]) {
      SoundColumns(State(Some(batches[0].columns), false), batches[1..]);
    }
  }

  // ── What the fields say ──────────────────────────────────────────────────────────────────────

  /** The text a value is exported as. */
  ghost predicate Shows(text: string, v: Value, nullValue: string) {
    (v == Null && text == nullValue) || v == Date(Some(text)) || (v == NegativeZero && text == "-0") || v == Plain(text)
  }

  /** A record shows a row column by column; a column the row lacks is null. */
  ghost predicate RowShows(texts: seq<string>, row: Row, columns: seq<string>, nullValue: string) {
    |texts| == |columns|
    && forall j :: 0 <= j < |columns| ==>
         Shows(texts[j], if columns[j] in row then row[columns[j]] else Null, nullValue)
  }

  /** The records show the rows of the batches, one after another. */
  ghost predicate Tells(records: seq<seq<string>>, batches: seq<Batch>, nullValue: string)
    decreases |batches|
  {
    if batches == [] then records == []
    else
      var b := batches[0];
      |b.rows| <= |records|
      && (forall i :: 0 <= i < |b.rows| ==> RowShows(records[i], b.rows[i], b.columns, nullValue))
      && Tells(records[|b.rows|..], batches[1..], nullValue)
  }

  ghost predicate DateIsInvalid(b: Batch, i: nat, j: nat)
    requires i < |b.rows| && j < |b.columns|
  {
    b.columns[j] in b.rows[i] && b.rows[i][b.columns[j]] == Date(None)
  }

  /** Only an invalid date cannot be exported. */
  lemma PrintableIff(b: Batch)
    ensures Printable(b) <==> forall i, j :: 0 <= i < |b.rows| && 0 <= j < |b.columns| ==> !DateIsInvalid(b, i, j)
  {
    if Printable(b) {
      forall i, j | 0 <= i < |b.rows| && 0 <= j < |b.columns| ensures !DateIsInvalid(b, i, j) {
        assert PrintableRow(b.rows[i], b.columns);
      }
    } else {
      var i :| 0 <= i < |b.rows| && !PrintableRow(b.rows[i], b.columns);
      var j :| 0 <= j < |b.columns| && Scalar(ValueAt(b.rows[i], b.columns[j]), "").None?;
      assert DateIsInvalid(b, i, j);
    }
  }

  lemma RowTells(row: Row, columns: seq<string>, nullValue: string)
    requires PrintableRow(row, columns)
    ensures RowShows(Texts(row, columns, nullValue), row, columns, nullValue)
  {
    var texts := Texts(row, columns, nullValue);
    forall j | 0 <= j < |columns|
      ensures Shows(texts[j], if columns[j] in row then row[columns[j]] else Null, nullValue)
    {
      assert Scalar(ValueAt(row, columns[j]), "").Some?;
    }
  }

  lemma {:induction false} RowsTell(batches: seq<Batch>, nullValue: string)
    requires forall k :: 0 <= k < |batches| ==> Printable(batches[k])
    ensures Tells(AllRows(batches, nullValue), batches, nullValue)
    decreases |batches|
  {
    if batches != [] {
      var b := batches[0];
      RowsTell(batches[1..], nullValue);
      assert Printable(b);
      var own := RowsOf(b.rows, b.columns, nullValue);
      forall i | 0 <= i < |b.rows| ensures RowShows(own[i], b.rows[i], b.columns, nullValue) {
        RowTells(b.rows[i], b.columns, nullValue);
      }
      hide RowShows, Texts, Printable;
      assert (own + AllRows(batches[1..], nullValue))[|b.rows|..] == AllRows(batches[1..], nullValue);
    }
  }

  /** Reading everything a stream gave, in the format asked for, yields the header, once and if asked for, and for every
      row of the batches before the first bad one, however they were split, a record that shows its values; the end
      says which way the stream ended. */
  lemma ReadsBack(o: Options, f: Format, batches: seq<Batch>, broken: bool) returns (records: seq<seq<string>>)
    requires Legal(f) && Asked(o, f)
    ensures FormatOf(o) == Some(f)
    ensures var n, s := Sound(State(None, o.header), batches), StreamOf(State(None, o.header), batches, broken, f);
            Read(Flat(s.chunks), f)
              == Some(SeenAll((if o.header && n > 0 then [batches[0].columns] else []) + records))
            && Tells(records, batches[..n], o.nullValue)
            && "" !in s.chunks
            && s.end == EndOf(batches, n, broken, if n > 0 then Some(batches[0].columns) else None)
  {
    var st := State(None, o.header);
    var n := Sound(st, batches);
    StreamPrints(st, batches, broken, f);
    LinesRead(Table(st, batches[..n], f.nullValue), f);
    SoundColumns(st, batches);
    records := AllRows(batches[..n], f.nullValue);
    RowsTell(batches[..n], f.nullValue);
    hide Printable, Lines, StreamOf, Read;
  }

  /** A field is quoted only when it has to be. */
  lemma QuotedIff(s: string, d: char)
    ensures Field(s, d) == s <==> d !in s && '"' !in s && '\r' !in s && '\n' !in s
  {
    DoubledLonger(s);
  }

  lemma {:induction false} DoubledLonger(s: string)
    ensures |Doubled(s)| >= |s|
  {
    if s != "" { DoubledLonger(s[1..]); }
  }

  /** With a column at least, nothing at all is lost; with none, each record comes back as one empty field. */
  lemma NothingIsLost(records: seq<seq<string>>)
    ensures SeenAll(records) == records <==> [] !in records
  {
    if [] in records {
      var i :| 0 <= i < |records| && records[i] == [];
      assert SeenAll(records)[i] == [""];
    }
  }
}
