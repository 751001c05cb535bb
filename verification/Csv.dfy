/** The bounded CSV reader, against the printer of section 2 of RFC 4180. */
module Csv {
  import opened Basics

  datatype Limits = Limits(maxBytes: nat, maxRows: nat, maxColumns: nat, maxFieldChars: nat)

  type Record = seq<string>

  // ---------- the splitter as a state machine ----------

  datatype State = State(records: seq<Record>, fields: Record, current: string, quoted: bool)

  const START := State([], [], "", false)

  /** Checked before every character. */
  predicate Over(s: State, limits: Limits) {
    |s.current| > limits.maxFieldChars || |s.fields| >= limits.maxColumns || |s.records| > limits.maxRows
  }

  function EndField(s: State): State {
    s.(fields := s.fields + [s.current], current := "")
  }

  function EndRecord(s: State): State {
    var t := EndField(s);
    t.(records := t.records + [t.fields], fields := [])
  }

  predicate Pair(text: string, a: char, b: char) { |text| > 1 && text[0] == a && text[1] == b }

  /** The characters one turn of the loop consumes. */
  function Width(text: string, quoted: bool): nat {
    if (quoted && Pair(text, '"', '"')) || (!quoted && Pair(text, '\r', '\n')) then 2 else 1
  }

  function Turn(text: string, s: State): State
    requires text != ""
  {
    var c := text[0];
    if s.quoted then
      if c != '"' || Pair(text, '"', '"') then s.(current := s.current + [c]) else s.(quoted := false)
    else if c == '"' then s.(quoted := true)
    else if c == ',' then EndField(s)
    else if c == '\n' || c == '\r' then EndRecord(s)
    else s.(current := s.current + [c])
  }

  function Scan(text: string, s: State, limits: Limits): Option<State> {
    if text == "" then Some(s)
    else if Over(s, limits) then None
    else Scan(text[Width(text, s.quoted)..], Turn(text, s), limits)
  }

  /** At the end an unfinished record counts, unless it is a single empty field. */
  function Close(s: State): State {
    if s.current != "" || s.fields != [] then
      s.(fields := s.fields + [s.current], records := s.records + [s.fields + [s.current]])
    else s
  }

  predicate Rejected(s: State, limits: Limits) {
    |s.current| > limits.maxFieldChars || |s.fields| > limits.maxColumns || |s.records| > limits.maxRows + 1 || s.quoted
  }

  function Split(text: string, limits: Limits): Option<seq<Record>> {
    var scanned := Scan(text, START, limits);
    if scanned.None? || Rejected(Close(scanned.value), limits) then None else Some(Close(scanned.value).records)
  }

  /** The loop of the program computes the state machine. */
  method SplitRecords(text: string, limits: Limits) returns (result: Option<seq<Record>>)
    ensures result == Split(text, limits)
  {
    var records: seq<Record>, fields: Record, current, quoted := [], [], "", false;
    var i := 0;
    while i < |text|
      invariant 0 <= i <= |text|
      invariant Scan(text, START, limits) == Scan(text[i..], State(records, fields, current, quoted), limits)
    {
      if |current| > limits.maxFieldChars || |fields| >= limits.maxColumns || |records| > limits.maxRows {
        return None;
      }
      ghost var before, start := State(records, fields, current, quoted), i;
      var c := text[i];
      if quoted {
        if c == '"' && i + 1 < |text| && text[i + 1] == '"' {
          current := current + ['"'];
          i := i + 1;
        } else if c == '"' {
          quoted := false;
        } else {
          current := current + [c];
        }
      } else if c == '"' {
        quoted := true;
      } else if c == ',' {
        fields := fields + [current];
        current := "";
      } else if c == '\n' || c == '\r' {
        if c == '\r' && i + 1 < |text| && text[i + 1] == '\n' { i := i + 1; }
        fields := fields + [current];
        current := "";
        records := records + [fields];
        fields := [];
      } else {
        current := current + [c];
      }
      i := i + 1;
      assert State(records, fields, current, quoted) == Turn(text[start..], before);
      assert text[start..][Width(text[start..], before.quoted)..] == text[i..];
    }
    if current != "" || fields != [] {
      fields := fields + [current];
      records := records + [fields];
    }
    if |current| > limits.maxFieldChars || |fields| > limits.maxColumns || |records| > limits.maxRows + 1 || quoted {
      return None;
    }
    return Some(records);
  }

  // ---------- limits ----------

  predicate FieldsFit(fields: Record, limits: Limits) {
    |fields| <= limits.maxColumns && forall i | 0 <= i < |fields| :: |fields[i]| <= limits.maxFieldChars
  }

  predicate RecordFits(record: Record, limits: Limits) { record != [] && FieldsFit(record, limits) }

  ghost predicate Within(s: State, limits: Limits) {
    && FieldsFit(s.fields, limits) && |s.current| <= limits.maxFieldChars + 1
    && |s.records| <= limits.maxRows + 1
    && forall i | 0 <= i < |s.records| :: RecordFits(s.records[i], limits)
  }

  lemma {:induction false} ScanWithin(text: string, s: State, limits: Limits)
    requires Within(s, limits) && Scan(text, s, limits).Some?
    ensures Within(Scan(text, s, limits).value, limits)
    decreases |text|
  {
    if text != "" {
      ScanWithin(text[Width(text, s.quoted)..], Turn(text, s), limits);
    }
  }

  /** Whatever was accepted is within every limit: rows after the header, columns and field lengths. */
  lemma AcceptedFits(text: string, limits: Limits)
    requires Split(text, limits).Some?
    ensures var records := Split(text, limits).value;
      |records| <= limits.maxRows + 1 && forall i | 0 <= i < |records| :: RecordFits(records[i], limits)
  {
    ScanWithin(text, START, limits);
  }

  // ---------- the printer ----------

  predicate Special(c: char) { c == ',' || c == '"' || c == '\r' || c == '\n' }

  /** A stretch of a field, quoted or not; special characters leave no choice. */
  datatype Chunk = Chunk(text: string, quoted: bool)
  {
    predicate Valid() { quoted || (text != "" && forall i | 0 <= i < |text| :: !Special(text[i])) }
  }

  /** A field as its writer cut it up: the reader takes quotes anywhere, but two in a row are a quoted quote. */
  datatype Cell = Cell(chunks: seq<Chunk>)
  {
    predicate Valid() {
      && (forall i | 0 <= i < |chunks| :: chunks[i].Valid())
      && (forall i | 0 < i < |chunks| :: !(chunks[i - 1].quoted && chunks[i].quoted))
    }

    function Text(): string { Join(chunks) }
  }

  function Join(chunks: seq<Chunk>): string {
    if chunks == [] then "" else chunks[0].text + Join(chunks[1..])
  }

  function Escape(s: string): string {
    if s == "" then "" else (if s[0] == '"' then "\"\"" else [s[0]]) + Escape(s[1..])
  }

  function PrintChunk(c: Chunk): string {
    if c.quoted then "\"" + Escape(c.text) + "\"" else c.text
  }

  function PrintCell(c: Cell): string
    decreases |c.chunks|
  {
    if c.chunks == [] then "" else PrintChunk(c.chunks[0]) + PrintCell(Cell(c.chunks[1..]))
  }

  function PrintCells(cells: seq<Cell>): string {
    if cells == [] then ""
    else if |cells| == 1 then PrintCell(cells[0])
    else PrintCell(cells[0]) + "," + PrintCells(cells[1..])
  }

  /** Section 2 of RFC 4180 asks for CRLF; files of other systems end their lines otherwise. */
  datatype Break = Lf | Cr | CrLf

  function BreakText(b: Break): string {
    match b
    case Lf => "\n"
    case Cr => "\r"
    case CrLf => "\r\n"
  }

  /** A row and the line break its writer chose for it. */
  datatype Line = Line(cells: seq<Cell>, end: Break)
  {
    predicate Fits(limits: Limits) { cells != [] && RowValid(cells, limits) }
  }

  function Print(lines: seq<Line>): string {
    if lines == [] then "" else PrintCells(lines[0].cells) + BreakText(lines[0].end) + Print(lines[1..])
  }

  function Texts(cells: seq<Cell>): Record { seq(|cells|, i requires 0 <= i < |cells| => cells[i].Text()) }

  function Table(lines: seq<Line>): seq<Record> { seq(|lines|, i requires 0 <= i < |lines| => Texts(lines[i].cells)) }

  predicate RowValid(cells: seq<Cell>, limits: Limits) {
    RecordFits(Texts(cells), limits) && forall i | 0 <= i < |cells| :: cells[i].Valid()
  }

  // ---------- round trip ----------

  /** Scanning a printed string leaves the rest to a state that has collected it. */
  lemma {:induction false} ScanPlain(s: string, rest: string, st: State, limits: Limits)
    requires !st.quoted && forall i | 0 <= i < |s| :: !Special(s[i])
    requires |st.current + s| <= limits.maxFieldChars && |st.fields| < limits.maxColumns && |st.records| <= limits.maxRows
    ensures Scan(s + rest, st, limits) == Scan(rest, st.(current := st.current + s), limits)
    decreases |s|
  {
    if s == "" {
      assert s + rest == rest && st.current + s == st.current;
    } else {
      var text := s + rest;
      assert text[Width(text, false)..] == s[1..] + rest;
      assert st.current + [s[0]] + s[1..] == st.current + s;
      ScanPlain(s[1..], rest, st.(current := st.current + [s[0]]), limits);
    }
  }

  lemma {:induction false} ScanEscaped(s: string, rest: string, st: State, limits: Limits)
    requires st.quoted && (rest == "" || rest[0] != '"')
    requires |st.current + s| <= limits.maxFieldChars && |st.fields| < limits.maxColumns && |st.records| <= limits.maxRows
    ensures Scan(Escape(s) + "\"" + rest, st, limits) == Scan(rest, st.(current := st.current + s, quoted := false), limits)
    decreases |s|
  {
    var text := Escape(s) + "\"" + rest;
    if s == "" {
      assert text == ['"'] + rest && text[Width(text, true)..] == rest;
      assert st.current + s == st.current;
    } else {
      var next := Escape(s[1..]) + "\"" + rest;
      assert text[Width(text, true)..] == next by {
        if s[0] == '"' { assert text == "\"\"" + next; } else { assert text == [s[0]] + next; }
      }
      assert st.current + [s[0]] + s[1..] == st.current + s;
      ScanEscaped(s[1..], rest, st.(current := st.current + [s[0]]), limits);
    }
  }

  lemma ScanQuote(rest: string, st: State, limits: Limits)
    requires !st.quoted && !Over(st, limits)
    ensures Scan("\"" + rest, st, limits) == Scan(rest, st.(quoted := true), limits)
  {
    var text := "\"" + rest;
    assert text[Width(text, false)..] == rest;
  }

  lemma ScanChunk(c: Chunk, rest: string, st: State, limits: Limits)
    requires c.Valid() && (c.quoted ==> rest == "" || rest[0] != '"')
    requires |st.current + c.text| <= limits.maxFieldChars
    requires !st.quoted && |st.fields| < limits.maxColumns && |st.records| <= limits.maxRows
    ensures Scan(PrintChunk(c) + rest, st, limits) == Scan(rest, st.(current := st.current + c.text), limits)
  {
    hide Scan, Escape;
    if c.quoted {
      var inner := Escape(c.text) + "\"" + rest;
      assert PrintChunk(c) + rest == "\"" + inner;
      ScanQuote(inner, st, limits);
      ScanEscaped(c.text, rest, st.(quoted := true), limits);
    } else {
      ScanPlain(c.text, rest, st, limits);
    }
  }

  lemma RestValid(c: Cell)
    requires c.chunks != [] && c.Valid()
    ensures Cell(c.chunks[1..]).Valid()
  {
    var tail := c.chunks[1..];
    assert forall i | 0 < i < |tail| :: tail[i - 1] == c.chunks[i] && tail[i] == c.chunks[i + 1];
  }

  lemma {:induction false} ScanCell(c: Cell, rest: string, st: State, limits: Limits)
    requires c.Valid() && |st.current + c.Text()| <= limits.maxFieldChars && (rest == "" || rest[0] != '"')
    requires !st.quoted && |st.fields| < limits.maxColumns && |st.records| <= limits.maxRows
    ensures Scan(PrintCell(c) + rest, st, limits) == Scan(rest, st.(current := st.current + c.Text()), limits)
    decreases |c.chunks|
  {
    if c.chunks == [] {
      assert PrintCell(c) + rest == rest && st.current + c.Text() == st.current;
    } else {
      var first, tail := c.chunks[0], Cell(c.chunks[1..]);
      RestValid(c);
      if first.quoted && tail.chunks != [] {
        assert !c.chunks[1].quoted && c.chunks[1].Valid();
        assert PrintCell(tail)[0] == c.chunks[1].text[0] && !Special(c.chunks[1].text[0]);
      }
      hide Scan, PrintChunk, Cell.Valid, Chunk.Valid;
      assert PrintCell(c) + rest == PrintChunk(first) + (PrintCell(tail) + rest);
      assert st.current + first.text + tail.Text() == st.current + c.Text();
      ScanChunk(first, PrintCell(tail) + rest, st, limits);
      ScanCell(tail, rest, st.(current := st.current + first.text), limits);
    }
  }

  lemma {:induction false} ScanCells(cells: seq<Cell>, rest: string, st: State, limits: Limits)
    requires cells != [] && forall i | 0 <= i < |cells| :: cells[i].Valid() && |cells[i].Text()| <= limits.maxFieldChars
    requires !st.quoted && st.current == "" && |st.fields| + |cells| <= limits.maxColumns && |st.records| <= limits.maxRows
    requires rest == "" || rest[0] != '"'
    ensures var n := |cells| - 1;
      Scan(PrintCells(cells) + rest, st, limits)
      == Scan(rest, st.(fields := st.fields + Texts(cells)[..n], current := cells[n].Text()), limits)
    decreases |cells|
  {
    hide Scan, PrintCell;
    var n := |cells| - 1;
    assert st.current + cells[0].Text() == cells[0].Text();
    if n == 0 {
      ScanCell(cells[0], rest, st, limits);
      assert st.fields + Texts(cells)[..n] == st.fields;
    } else {
      var tail := PrintCells(cells[1..]) + rest;
      assert PrintCells(cells) + rest == PrintCell(cells[0]) + ("," + tail);
      ScanCell(cells[0], "," + tail, st, limits);
      ScanComma(tail, st.(current := cells[0].Text()), limits);
      ScanCells(cells[1..], rest, st.(fields := st.fields + [cells[0].Text()]), limits);
      hide PrintCells;
      assert st.fields + [cells[0].Text()] + Texts(cells[1..])[..n - 1] == st.fields + Texts(cells)[..n];
    }
  }

  lemma ScanBreak(b: Break, rest: string, st: State, limits: Limits)
    requires !st.quoted && !Over(st, limits) && (b.Cr? ==> rest == "" || rest[0] != '\n')
    ensures Scan(BreakText(b) + rest, st, limits) == Scan(rest, EndRecord(st), limits)
  {
    var text := BreakText(b) + rest;
    assert text[Width(text, false)..] == rest;
  }

  lemma ScanComma(rest: string, st: State, limits: Limits)
    requires !st.quoted && !Over(st, limits)
    ensures Scan("," + rest, st, limits) == Scan(rest, EndField(st), limits)
  {
    var text := "," + rest;
    assert text[Width(text, false)..] == rest;
  }

  lemma ScanRow(line: Line, rest: string, st: State, limits: Limits)
    requires line.Fits(limits) && (line.end.Cr? ==> rest == "" || rest[0] != '\n')
    requires !st.quoted && st.current == "" && st.fields == [] && |st.records| <= limits.maxRows
    ensures Scan(PrintCells(line.cells) + BreakText(line.end) + rest, st, limits)
         == Scan(rest, st.(records := st.records + [Texts(line.cells)]), limits)
  {
    hide Scan, PrintCells;
    var cells, n := line.cells, |line.cells| - 1;
    var end := BreakText(line.end);
    assert forall i | 0 <= i < |cells| :: Texts(cells)[i] == cells[i].Text();
    ScanCells(cells, end + rest, st, limits);
    assert PrintCells(cells) + end + rest == PrintCells(cells) + (end + rest);
    var st1 := st.(fields := st.fields + Texts(cells)[..n], current := cells[n].Text());
    assert st1.fields + [st1.current] == Texts(cells);
    ScanBreak(line.end, rest, st1, limits);
  }

  /** Only an unquoted empty field leaves its line empty, and no line starts with a line feed of its own. */
  lemma FirstChar(cells: seq<Cell>)
    requires cells != [] && forall i | 0 <= i < |cells| :: cells[i].Valid()
    ensures PrintCells(cells) == "" <==> cells == [Cell([])]
    ensures PrintCells(cells) != "" ==> PrintCells(cells)[0] != '\n'
  {
    var c := cells[0];
    assert c.Valid();
    if c.chunks == [] {
      assert PrintCell(c) == "" && c == Cell([]);
    } else {
      assert c.chunks[0].Valid();
      assert PrintCell(c)[0] == PrintChunk(c.chunks[0])[0] != '\n';
    }
    if |cells| > 1 {
      assert PrintCells(cells)[0] == if PrintCell(cells[0]) == "" then ',' else PrintCell(cells[0])[0];
    } else {
      assert cells == [cells[0]];
    }
  }

  /** A carriage return and the line feed of an empty line after it are one line break to any reader. */
  predicate Blends(line: Line, next: Line) {
    line.end.Cr? && next == Line([Cell([])], Lf)
  }

  predicate Apart(lines: seq<Line>) {
    forall i | 0 < i < |lines| :: !Blends(lines[i - 1], lines[i])
  }

  /** What the reader makes of it. */
  function Blended(lines: seq<Line>): (r: seq<Line>)
    decreases |lines|
  {
    if |lines| < 2 then lines
    else if Blends(lines[0], lines[1]) then [lines[0].(end := CrLf)] + Blended(lines[2..])
    else [lines[0]] + Blended(lines[1..])
  }

  lemma {:induction false} BlendedFits(lines: seq<Line>, limits: Limits)
    requires forall i | 0 <= i < |lines| :: lines[i].Fits(limits)
    ensures forall i | 0 <= i < |Blended(lines)| :: Blended(lines)[i].Fits(limits)
    decreases |lines|
  {
    if |lines| >= 2 {
      hide RowValid;
      assert lines[0].(end := CrLf).Fits(limits);
      hide Line.Fits;
      BlendedFits(if Blends(lines[0], lines[1]) then lines[2..] else lines[1..], limits);
    }
  }

  /** Blending does not change a character of the text. */
  lemma {:induction false} BlendedPrints(lines: seq<Line>)
    ensures Print(Blended(lines)) == Print(lines)
    decreases |lines|
  {
    if |lines| >= 2 {
      if Blends(lines[0], lines[1]) {
        BlendedPrints(lines[2..]);
        var row, rest := PrintCells(lines[0].cells), Print(lines[2..]);
        assert lines[1..][1..] == lines[2..];
        assert Print(lines[1..]) == "" + "\n" + rest;
        assert row + "\r" + ("\n" + rest) == row + "\r\n" + rest;
      } else {
        BlendedPrints(lines[1..]);
      }
    }
  }

  lemma ApartCons(line: Line, lines: seq<Line>)
    ensures Apart([line] + lines) <==> Apart(lines) && (lines != [] ==> !Blends(line, lines[0]))
  {
    var all := [line] + lines;
    assert forall i | 0 < i < |lines| :: all[i] == lines[i - 1] && all[i + 1] == lines[i];
    if Apart(lines) && (lines != [] ==> !Blends(line, lines[0])) {
      forall i | 0 < i < |all| ensures !Blends(all[i - 1], all[i]) {
        if i > 1 { assert !Blends(lines[i - 2], lines[i - 1]); }
      }
    } else if Apart(all) {
      assert lines != [] ==> !Blends(all[0], all[1]);
      forall i | 0 < i < |lines| ensures !Blends(lines[i - 1], lines[i]) {
        assert !Blends(all[i], all[i + 1]);
      }
    }
  }

  lemma {:induction false} BlendedApart(lines: seq<Line>)
    ensures Apart(Blended(lines))
    ensures lines != [] ==> Blended(lines) != [] && (Blended(lines)[0] == lines[0] || Blended(lines)[0].end.CrLf?)
    ensures if Apart(lines) then Blended(lines) == lines else |Blended(lines)| < |lines|
    ensures |Blended(lines)| <= |lines|
    decreases |lines|
  {
    if |lines| >= 2 {
      ApartCons(lines[0], lines[1..]);
      assert lines == [lines[0]] + lines[1..];
      if Blends(lines[0], lines[1]) {
        BlendedApart(lines[2..]);
        ApartCons(lines[0].(end := CrLf), Blended(lines[2..]));
      } else {
        BlendedApart(lines[1..]);
        ApartCons(lines[0], Blended(lines[1..]));
      }
      hide Apart;
    }
  }

  /** Whatever follows the line break of a line that does not blend with the next leaves that break alone. */
  lemma TailStart(lines: seq<Line>, rest: string, limits: Limits)
    requires lines != [] && Apart(lines) && forall i | 0 <= i < |lines| :: lines[i].Fits(limits)
    requires lines[|lines| - 1].end.Cr? ==> rest == "" || rest[0] != '\n'
    ensures var tail := Print(lines[1..]) + rest; lines[0].end.Cr? ==> tail == "" || tail[0] != '\n'
  {
    if |lines| > 1 {
      var next := lines[1];
      assert next.Fits(limits) && !Blends(lines[0], next);
      FirstChar(next.cells);
      hide PrintCells, Apart, RowValid, Blends;
      var start := PrintCells(next.cells) + BreakText(next.end);
      assert Print(lines[1..]) == start + Print(lines[1..][1..]);
      assert (Print(lines[1..]) + rest)[0] == start[0];
      if lines[0].end.Cr? && PrintCells(next.cells) == "" { assert !next.end.Lf? by { assert next == Line([Cell([])], next.end); } }
    } else {
      assert Print(lines[1..]) + rest == rest;
    }
  }

  lemma ApartRest(lines: seq<Line>)
    requires lines != [] && Apart(lines)
    ensures Apart(lines[1..])
  {
    ApartCons(lines[0], lines[1..]);
    assert lines == [lines[0]] + lines[1..];
  }

  lemma {:induction false} ScanRows(lines: seq<Line>, rest: string, st: State, limits: Limits)
    requires Apart(lines) && forall i | 0 <= i < |lines| :: lines[i].Fits(limits)
    requires lines != [] && lines[|lines| - 1].end.Cr? ==> rest == "" || rest[0] != '\n'
    requires !st.quoted && st.current == "" && st.fields == [] && |st.records| + |lines| <= limits.maxRows + 1
    ensures Scan(Print(lines) + rest, st, limits) == Scan(rest, st.(records := st.records + Table(lines)), limits)
    decreases |lines|
  {
    hide Scan, PrintCells, Line.Fits, Apart, BreakText;
    if lines == [] {
      assert Print(lines) + rest == rest && st.records + Table(lines) == st.records;
    } else {
      var tail := Print(lines[1..]) + rest;
      assert Print(lines) + rest == PrintCells(lines[0].cells) + BreakText(lines[0].end) + tail;
      TailStart(lines, rest, limits);
      ApartRest(lines);
      ScanRow(lines[0], tail, st, limits);
      ScanRows(lines[1..], rest, st.(records := st.records + [Texts(lines[0].cells)]), limits);
      assert st.records + [Texts(lines[0].cells)] + Table(lines[1..]) == st.records + Table(lines);
    }
  }

  lemma ReadsApart(lines: seq<Line>, limits: Limits)
    requires |lines| <= limits.maxRows + 1 && Apart(lines) && forall i | 0 <= i < |lines| :: lines[i].Fits(limits)
    ensures Split(Print(lines), limits) == Some(Table(lines))
  {
    hide Line.Fits, Apart, Scan, Print, Split;
    ScanRows(lines, "", START, limits);
    assert Print(lines) + "" == Print(lines);
    assert START.records + Table(lines) == Table(lines);
    ScanNothing(START.(records := Table(lines)), limits);
    Closes(Print(lines), START.(records := Table(lines)), limits);
  }

  lemma ScanNothing(st: State, limits: Limits)
    ensures Scan("", st, limits) == Some(st)
  {
  }

  lemma Closes(text: string, st: State, limits: Limits)
    requires Scan(text, START, limits) == Some(st)
    ensures Split(text, limits) == if Rejected(Close(st), limits) then None else Some(Close(st).records)
  {
  }

  /** What the reader gets from any printed text, whatever quotes and line breaks its writer chose. */
  lemma ReadsBlended(lines: seq<Line>, limits: Limits)
    requires |lines| <= limits.maxRows + 1 && forall i | 0 <= i < |lines| :: lines[i].Fits(limits)
    ensures Split(Print(lines), limits) == Some(Table(Blended(lines)))
  {
    hide Line.Fits, Apart, Split, Print, Blended;
    BlendedFits(lines, limits);
    BlendedPrints(lines);
    BlendedApart(lines);
    ReadsApart(Blended(lines), limits);
  }

  /**
   * Printing any table within the limits, with any legal choice of quotes and of line
   * breaks, and splitting it gives it back, exactly unless the line feed of an empty line
   * follows a carriage return.
   */
  lemma RoundTrip(lines: seq<Line>, limits: Limits)
    requires |lines| <= limits.maxRows + 1 && forall i | 0 <= i < |lines| :: lines[i].Fits(limits)
    ensures Split(Print(lines), limits) == Some(Table(lines))
       <==> forall i | 0 < i < |lines| :: !(lines[i - 1].end.Cr? && lines[i] == Line([Cell([])], Lf))
  {
    ReadsBlended(lines, limits);
    BlendedApart(lines);
    hide Split, Print, Blended;
    assert |Table(lines)| == |lines| && |Table(Blended(lines))| == |Blended(lines)|;
    assert Apart(lines) <==> forall i | 0 < i < |lines| :: !(lines[i - 1].end.Cr? && lines[i] == Line([Cell([])], Lf));
  }

  lemma ScansOpen(lines: seq<Line>, last: seq<Cell>, limits: Limits)
    requires |lines| <= limits.maxRows && Apart(lines) && forall i | 0 <= i < |lines| :: lines[i].Fits(limits)
    requires last != [] && RowValid(last, limits)
    ensures Scan(Print(lines) + PrintCells(last), START, limits)
         == Some(State(Table(lines), Texts(last)[..|last| - 1], last[|last| - 1].Text(), false))
  {
    FirstChar(last);
    hide Line.Fits, Apart, Scan, Print, PrintCells, RowValid;
    var st := START.(records := START.records + Table(lines));
    ScanRows(lines, PrintCells(last), START, limits);
    ScanLast(last, st, limits);
    assert START.records + Table(lines) == Table(lines);
  }

  /** A text whose last line has no break is read line by line, and that last line counts unless it is one empty field. */
  lemma ReadsOpen(lines: seq<Line>, last: seq<Cell>, limits: Limits)
    requires |lines| <= limits.maxRows && Apart(lines) && forall i | 0 <= i < |lines| :: lines[i].Fits(limits)
    requires last != [] && RowValid(last, limits)
    ensures Split(Print(lines) + PrintCells(last), limits)
         == Some(Table(lines) + if Texts(last) == [""] then [] else [Texts(last)])
  {
    ScansOpen(lines, last, limits);
    var cells, n := Texts(last), |last| - 1;
    ClosesLast(Table(lines), cells, limits);
    hide Scan, Print, PrintCells, Line.Fits, Apart, Texts, Split, RowValid, Close, Rejected;
    Closes(Print(lines) + PrintCells(last), State(Table(lines), cells[..n], last[n].Text(), false), limits);
  }

  lemma ClosesLast(records: seq<Record>, fields: Record, limits: Limits)
    requires RecordFits(fields, limits) && |records| <= limits.maxRows
    ensures var n := |fields| - 1;
      var st := State(records, fields[..n], fields[n], false);
      && !Rejected(Close(st), limits)
      && Close(st).records == records + if fields == [""] then [] else [fields]
  {
    var n := |fields| - 1;
    assert fields == fields[..n] + [fields[n]];
    assert records + [] == records;
  }

  /** Without its last line break a table survives exactly when, in addition, its last record is not one empty field. */
  lemma OpenRoundTrip(lines: seq<Line>, last: seq<Cell>, limits: Limits)
    requires |lines| <= limits.maxRows && forall i | 0 <= i < |lines| :: lines[i].Fits(limits)
    requires last != [] && RowValid(last, limits)
    ensures Split(Print(lines) + PrintCells(last), limits) == Some(Table(lines) + [Texts(last)])
       <==> Apart(lines) && Texts(last) != [""]
  {
    hide Split, Print, PrintCells, Blended, Line.Fits, Apart, RowValid;
    BlendedFits(lines, limits);
    BlendedPrints(lines);
    BlendedApart(lines);
    var read := Blended(lines);
    ReadsOpen(read, last, limits);
    assert |Table(read)| == |read| && |Table(lines)| == |lines|;
    hide Table, Texts;
    SameEnd(Table(read), Table(lines), Texts(last));
  }

  lemma {:induction false} StaysQuoted(s: string, st: State, limits: Limits)
    requires st.quoted
    ensures Scan(Escape(s), st, limits).Some? ==> Scan(Escape(s), st, limits).value.quoted
    decreases |s|
  {
    if s != "" && !Over(st, limits) {
      var text, next := Escape(s), Escape(s[1..]);
      assert text[Width(text, true)..] == next by {
        if s[0] == '"' { assert text == "\"\"" + next; } else { assert text == [s[0]] + next; }
      }
      StaysQuoted(s[1..], st.(current := st.current + [s[0]]), limits);
    }
  }

  /** A quoted field that is never closed is refused, after any table. */
  lemma UnclosedIsRefused(lines: seq<Line>, s: string, limits: Limits)
    requires |lines| <= limits.maxRows && limits.maxColumns > 0 && forall i | 0 <= i < |lines| :: lines[i].Fits(limits)
    ensures Split(Print(lines) + "\"" + Escape(s), limits).None?
  {
    hide Line.Fits, Apart, Scan, Print, Blended, Escape;
    BlendedFits(lines, limits);
    BlendedPrints(lines);
    BlendedApart(lines);
    var st := START.(records := START.records + Table(Blended(lines)));
    ScanRows(Blended(lines), "\"" + Escape(s), START, limits);
    assert Print(lines) + "\"" + Escape(s) == Print(lines) + ("\"" + Escape(s));
    ScanQuote(Escape(s), st, limits);
    StaysQuoted(s, st.(quoted := true), limits);
  }

  lemma SameEnd(a: seq<Record>, b: seq<Record>, x: Record)
    requires |a| <= |b|
    ensures a != b + [x]
    ensures a + [x] == b + [x] ==> a == b
  {
    if a + [x] == b + [x] { assert (a + [x])[..|a|] == a && (b + [x])[..|b|] == b; }
  }

  /** A last line that ends with the text leaves its fields for the closing step. */
  lemma ScanLast(cells: seq<Cell>, st: State, limits: Limits)
    requires cells != [] && RowValid(cells, limits)
    requires !st.quoted && st.current == "" && st.fields == [] && |st.records| <= limits.maxRows
    ensures var n := |cells| - 1;
      Scan(PrintCells(cells), st, limits) == Some(st.(fields := Texts(cells)[..n], current := cells[n].Text()))
  {
    assert forall i | 0 <= i < |cells| :: Texts(cells)[i] == cells[i].Text();
    ScanCells(cells, "", st, limits);
    assert PrintCells(cells) + "" == PrintCells(cells);
    var n := |cells| - 1;
    assert st.fields + Texts(cells)[..n] == Texts(cells)[..n];
  }

  // ---------- rows by header ----------

  /** Trimming and lower-casing, whatever the culture tables say. */
  type Normaliser = string -> string

  function Headers(norm: Normaliser, record: Record): Record { seq(|record|, i requires 0 <= i < |record| => norm(record[i])) }

  predicate AllDistinct(s: Record) { forall i, j | 0 <= i < j < |s| :: s[i] != s[j] }

  predicate HeadersOk(headers: Record) { AllDistinct(headers) && forall i | 0 <= i < |headers| :: headers[i] != "" }

  function FieldAt(fields: Record, i: nat): string { if i < |fields| then fields[i] else "" }

  /** A field a header, the missing ones empty, the extra ones dropped. */
  function Row(norm: Normaliser, headers: Record, fields: Record, n: nat): map<string, string>
    requires n <= |headers|
  {
    if n == 0 then map[] else Row(norm, headers, fields, n - 1)[norm(headers[n - 1]) := FieldAt(fields, n - 1)]
  }

  predicate Blank(fields: Record) { fields == [""] }

  function Rows(norm: Normaliser, headers: Record, records: seq<Record>): seq<map<string, string>> {
    if records == [] then []
    else
      (if Blank(records[0]) then [] else [Row(norm, headers, records[0], |headers|)]) + Rows(norm, headers, records[1..])
  }

  function Parse(text: string, bytes: nat, norm: Normaliser, limits: Limits): Option<seq<map<string, string>>> {
    if bytes > limits.maxBytes then None
    else
      var lines := Split(text, limits);
      if lines.None? then None
      else if lines.value == [] then Some([])
      else
        var headers := Headers(norm, lines.value[0]);
        if !HeadersOk(headers) then None else Some(Rows(norm, headers, lines.value[1..]))
  }

  lemma {:induction false} RowFields(norm: Normaliser, headers: Record, fields: Record, n: nat)
    requires n <= |headers| && AllDistinct(headers) && forall i | 0 <= i < |headers| :: norm(headers[i]) == headers[i]
    ensures forall i | 0 <= i < n ::
              headers[i] in Row(norm, headers, fields, n) && Row(norm, headers, fields, n)[headers[i]] == FieldAt(fields, i)
  {
    if n > 0 { RowFields(norm, headers, fields, n - 1); }
  }

  lemma {:induction false} RowKeys(norm: Normaliser, headers: Record, fields: Record, n: nat)
    requires n <= |headers| && forall i | 0 <= i < |headers| :: norm(headers[i]) == headers[i]
    ensures forall h :: h in Row(norm, headers, fields, n) <==> h in headers[..n]
  {
    if n > 0 {
      RowKeys(norm, headers, fields, n - 1);
      assert headers[..n] == headers[..n - 1] + [headers[n - 1]];
    }
  }

  /** The records that are more than one empty field. */
  function Filled(records: seq<Record>): seq<Record> {
    if records == [] then [] else (if records[0] == [""] then [] else [records[0]]) + Filled(records[1..])
  }

  lemma {:induction false} RowsFacts(norm: Normaliser, headers: Record, records: seq<Record>)
    ensures var rows, data := Rows(norm, headers, records), Filled(records);
      |rows| == |data| && forall i | 0 <= i < |rows| :: rows[i] == Row(norm, headers, data[i], |headers|)
  {
    if records != [] { RowsFacts(norm, headers, records[1..]); }
  }

  /** The dictionary has exactly the headers as keys, and each field under its header. */
  ghost predicate Dictionary(row: map<string, string>, headers: Record, fields: Record) {
    && (forall h :: h in row <==> h in headers)
    && (forall h | 0 <= h < |headers| :: headers[h] in row && row[headers[h]] == if h < |fields| then fields[h] else "")
  }

  lemma RowIsDictionary(norm: Normaliser, headers: Record, fields: Record)
    requires AllDistinct(headers) && forall i | 0 <= i < |headers| :: norm(headers[i]) == headers[i]
    ensures Dictionary(Row(norm, headers, fields, |headers|), headers, fields)
  {
    RowFields(norm, headers, fields, |headers|);
    RowKeys(norm, headers, fields, |headers|);
    assert headers[..|headers|] == headers;
  }

  /** Normalising twice is normalising once; the parser does both. */
  ghost predicate Idempotent(norm: Normaliser) { forall s :: norm(norm(s)) == norm(s) }

  lemma FilledCons(line: Line, lines: seq<Line>)
    ensures Table([line] + lines)[1..] == Table(lines)
    ensures Filled(Table([line] + lines)) == (if Texts(line.cells) == [""] then [] else [Texts(line.cells)]) + Filled(Table(lines))
  {
    var all := Table([line] + lines);
    assert all[1..] == Table(lines) && all[0] == Texts(line.cells);
  }

  /** The empty lines that blend into a line break are no data in any case. */
  lemma {:induction false} BlendedFilled(lines: seq<Line>)
    ensures Filled(Table(Blended(lines))) == Filled(Table(lines))
    ensures lines != [] ==>
              && Blended(lines) != [] && Blended(lines)[0].cells == lines[0].cells
              && Filled(Table(Blended(lines))[1..]) == Filled(Table(lines)[1..])
    decreases |lines|
  {
    if |lines| >= 2 {
      var rest := lines[1..];
      assert lines == [lines[0]] + rest;
      FilledCons(lines[0], rest);
      if Blends(lines[0], lines[1]) {
        assert rest == [lines[1]] + lines[2..] && Texts(lines[1].cells) == [""];
        FilledCons(lines[1], lines[2..]);
        FilledCons(lines[0].(end := CrLf), Blended(lines[2..]));
        BlendedFilled(lines[2..]);
      } else {
        FilledCons(lines[0], Blended(rest));
        BlendedFilled(rest);
      }
      hide Filled, Table, Texts;
    }
  }

  /**
   * A printed table, whatever its line breaks, is parsed exactly if it has no more bytes
   * than allowed and its normalised headers are distinct and not empty; then there is one
   * dictionary for each data row that is more than one empty field, in order, under the
   * normalised headers.
   */
  lemma ParseReadsBack(lines: seq<Line>, bytes: nat, norm: Normaliser, limits: Limits)
    requires |lines| <= limits.maxRows + 1 && Idempotent(norm)
    requires forall i | 0 <= i < |lines| :: lines[i].Fits(limits)
    ensures Parse(Print(lines), bytes, norm, limits).Some?
       <==> bytes <= limits.maxBytes
            && (lines == [] || var headers := Headers(norm, Texts(lines[0].cells));
                               && (forall i, j | 0 <= i < j < |headers| :: headers[i] != headers[j])
                               && (forall i | 0 <= i < |headers| :: headers[i] != ""))
    ensures Parse(Print(lines), bytes, norm, limits).Some? ==>
              var parsed := Parse(Print(lines), bytes, norm, limits).value;
              if lines == [] then parsed == []
              else
                var headers, data := Headers(norm, Texts(lines[0].cells)), Filled(Table(lines)[1..]);
                |parsed| == |data| && forall i | 0 <= i < |parsed| :: Dictionary(parsed[i], headers, data[i])
  {
    ReadsBlended(lines, limits);
    BlendedFilled(lines);
    hide Print, Split, Rows, Filled, Dictionary, Blended;
    if lines != [] && HeadersOk(Headers(norm, Texts(lines[0].cells))) {
      RowsAreDictionaries(norm, Headers(norm, Texts(lines[0].cells)), Table(Blended(lines))[1..]);
    }
  }

  lemma RowsAreDictionaries(norm: Normaliser, headers: Record, records: seq<Record>)
    requires HeadersOk(headers) && forall i | 0 <= i < |headers| :: norm(headers[i]) == headers[i]
    ensures var rows, data := Rows(norm, headers, records), Filled(records);
      |rows| == |data| && forall i | 0 <= i < |rows| :: Dictionary(rows[i], headers, data[i])
  {
    hide Rows, Row, Filled, Dictionary;
    RowsFacts(norm, headers, records);
    var data := Filled(records);
    forall i | 0 <= i < |data| ensures Dictionary(Row(norm, headers, data[i], |headers|), headers, data[i]) {
      RowIsDictionary(norm, headers, data[i]);
    }
  }
}
