/** The study report's CSV reader, and the printing it inverts (section 2 of RFC 4180). */
module Csv {
  import opened Contracts
  import opened JsonText

  const CR: Unit := 0x0d
  const LF: Unit := 0x0a

  type Row = seq<Text>

  /** `rows` are finished, `row` holds the finished fields of the current one. */
  datatype Parser = Parser(rows: seq<Row>, row: Row, field: Text, quoted: bool)

  const START := Parser([], [], [], false)

  function StripCr(field: Text): Text {
    if field != [] && field[|field| - 1] == CR then field[..|field| - 1] else field
  }

  function Scan(t: Text, p: Parser): Parser {
    if t == [] then p
    else if p.quoted then
      if t[0] == QUOTE && |t| > 1 && t[1] == QUOTE then Scan(t[2..], p.(field := p.field + [QUOTE]))
      else if t[0] == QUOTE then Scan(t[1..], p.(quoted := false))
      else Scan(t[1..], p.(field := p.field + [t[0]]))
    else if t[0] == QUOTE then Scan(t[1..], p.(quoted := true))
    else if t[0] == COMMA then Scan(t[1..], p.(row := p.row + [p.field], field := []))
    else if t[0] == LF then Scan(t[1..], Parser(p.rows + [p.row + [StripCr(p.field)]], [], [], false))
    else Scan(t[1..], p.(field := p.field + [t[0]]))
  }

  /** The code units String.prototype.trim removes. */
  predicate White(u: Unit) {
    || 0x09 <= u <= 0x0d || u == 0x20 || u == 0xa0 || u == 0x1680 || 0x2000 <= u <= 0x200a
    || u == 0x2028 || u == 0x2029 || u == 0x202f || u == 0x205f || u == 0x3000 || u == 0xfeff
  }

  predicate Blank(row: Row) {
    forall field <- row :: forall u <- field :: White(u)
  }

  function NonBlank(rows: seq<Row>): seq<Row> {
    if rows == [] then []
    else (if Blank(rows[0]) then [] else [rows[0]]) + NonBlank(rows[1..])
  }

  function Parse(t: Text): Result<seq<Row>> {
    var end := Scan(t, START);
    if end.quoted then Err("CSV_UNCLOSED_QUOTE")
    else if end.field != [] || end.row != [] then Ok(NonBlank(end.rows + [end.row + [StripCr(end.field)]]))
    else Ok(NonBlank(end.rows))
  }

  method ParseCsvRows(input: Text) returns (result: Result<seq<Row>>)
    ensures result == Parse(input)
  {
    var rows: seq<Row>, row: Row, field: Text, quoted := [], [], [], false;
    var index := 0;
    while index < |input|
      invariant 0 <= index <= |input|
      invariant Scan(input[index..], Parser(rows, row, field, quoted)) == Scan(input, START)
    {
      var character := input[index];
      var rest := input[index..];
      assert rest[0] == character && rest[1..] == input[index + 1..];
      if quoted {
        if character == QUOTE && index + 1 < |input| && input[index + 1] == QUOTE {
          assert rest[2..] == input[index + 2..];
          field := field + [QUOTE];
          index := index + 1;
        } else if character == QUOTE {
          quoted := false;
        } else {
          field := field + [character];
        }
      } else if character == QUOTE {
        quoted := true;
      } else if character == COMMA {
        row := row + [field];
        field := [];
      } else if character == LF {
        row := row + [StripCr(field)];
        rows := rows + [row];
        row := [];
        field := [];
      } else {
        field := field + [character];
      }
      index := index + 1;
    }
    if quoted {
      return Err("CSV_UNCLOSED_QUOTE");
    }
    if |field| > 0 || |row| > 0 {
      row := row + [StripCr(field)];
      rows := rows + [row];
    }
    result := Ok(NonBlank(rows));
  }

  // Failure.

  function Quotes(t: Text): nat {
    if t == [] then 0 else (if t[0] == QUOTE then 1 else 0) + Quotes(t[1..])
  }

  lemma {:induction false} ScanFlips(t: Text, p: Parser)
    ensures Scan(t, p).quoted == (p.quoted != (Quotes(t) % 2 == 1))
    decreases |t|
  {
    if t != [] {
      if p.quoted && t[0] == QUOTE && |t| > 1 && t[1] == QUOTE {
        assert t[1..][1..] == t[2..] && Quotes(t) == Quotes(t[2..]) + 2;
        ScanFlips(t[2..], p.(field := p.field + [QUOTE]));
      } else if p.quoted {
        ScanFlips(t[1..], if t[0] == QUOTE then p.(quoted := false) else p.(field := p.field + [t[0]]));
      } else {
        ScanFlips(t[1..], if t[0] == QUOTE then p.(quoted := true)
                          else if t[0] == COMMA then p.(row := p.row + [p.field], field := [])
                          else if t[0] == LF then Parser(p.rows + [p.row + [StripCr(p.field)]], [], [], false)
                          else p.(field := p.field + [t[0]]));
      }
    }
  }

  /** Reading fails exactly on an odd number of quotes. */
  lemma FailsIffQuotesOdd(t: Text)
    ensures Parse(t).Err? <==> Quotes(t) % 2 == 1
  {
    ScanFlips(t, START);
  }

  // Printing.

  /** A field and whether it is printed in quotes. */
  datatype Cell = Cell(text: Text, quoted: bool)

  /** How a record ends; only the last one may end with the input. */
  datatype LineEnd = CrLf | JustLf | Missing

  datatype Record = Record(cells: seq<Cell>, end: LineEnd)

  predicate Printable(cell: Cell) {
    !cell.quoted ==> COMMA !in cell.text && QUOTE !in cell.text && LF !in cell.text
  }

  predicate EndsInCr(t: Text) {
    t != [] && t[|t| - 1] == CR
  }

  /** A record has at least one field, and a CR before anything but CRLF would be taken for its line end. */
  predicate PrintableRecord(record: Record) {
    && record.cells != [] && (forall cell <- record.cells :: Printable(cell))
    && (!record.end.CrLf? ==> !EndsInCr(record.cells[|record.cells| - 1].text))
  }

  predicate PrintableAll(records: seq<Record>) {
    && (forall record <- records :: PrintableRecord(record))
    && forall i | 0 <= i < |records| - 1 :: !records[i].end.Missing?
  }

  function Doubled(t: Text): Text {
    if t == [] then [] else (if t[0] == QUOTE then [QUOTE, QUOTE] else [t[0]]) + Doubled(t[1..])
  }

  function PrintCell(cell: Cell): Text {
    if cell.quoted then [QUOTE] + (Doubled(cell.text) + [QUOTE]) else cell.text
  }

  function PrintEnd(end: LineEnd): Text {
    match end
    case CrLf => [CR, LF]
    case JustLf => [LF]
    case Missing => []
  }

  function PrintRecord(cells: seq<Cell>, end: LineEnd): Text
    requires cells != []
  {
    if |cells| == 1 then PrintCell(cells[0]) + PrintEnd(end)
    else PrintCell(cells[0]) + ([COMMA] + PrintRecord(cells[1..], end))
  }

  function Print(records: seq<Record>): Text
    requires PrintableAll(records)
  {
    if records == [] then []
    else
      assert PrintableRecord(records[0]);
      PrintRecord(records[0].cells, records[0].end) + Print(records[1..])
  }

  function TextsOf(cells: seq<Cell>): Row {
    seq(|cells|, i requires 0 <= i < |cells| => cells[i].text)
  }

  function RowsOf(records: seq<Record>): seq<Row> {
    seq(|records|, i requires 0 <= i < |records| => TextsOf(records[i].cells))
  }

  lemma {:induction false} ScanBare(f: Text, rest: Text, p: Parser)
    requires !p.quoted && COMMA !in f && QUOTE !in f && LF !in f
    ensures Scan(f + rest, p) == Scan(rest, p.(field := p.field + f))
  {
    if f == [] {
      assert f + rest == rest && p.field + f == p.field;
    } else {
      assert f[0] in f;
      assert (f + rest)[1..] == f[1..] + rest;
      ScanBare(f[1..], rest, p.(field := p.field + [f[0]]));
      assert p.field + [f[0]] + f[1..] == p.field + f;
    }
  }

  lemma {:induction false} ScanQuoted(f: Text, rest: Text, p: Parser)
    requires p.quoted && (rest == [] || rest[0] != QUOTE)
    ensures Scan(Doubled(f) + ([QUOTE] + rest), p) == Scan(rest, p.(field := p.field + f, quoted := false))
  {
    var close := [QUOTE] + rest;
    if f == [] {
      assert Doubled(f) + close == close && p.field + f == p.field;
    } else {
      var head := if f[0] == QUOTE then [QUOTE, QUOTE] else [f[0]];
      Regroup(head, Doubled(f[1..]), close);
      ScanQuoted(f[1..], rest, p.(field := p.field + [f[0]]));
      assert p.field + [f[0]] + f[1..] == p.field + f;
    }
  }

  lemma ScanCell(cell: Cell, rest: Text, p: Parser)
    requires Printable(cell) && !p.quoted && p.field == [] && (rest == [] || rest[0] != QUOTE)
    ensures Scan(PrintCell(cell) + rest, p) == Scan(rest, p.(field := cell.text))
  {
    assert p.field + cell.text == cell.text;
    if cell.quoted {
      var body := Doubled(cell.text);
      assert PrintCell(cell) + rest == [QUOTE] + (body + ([QUOTE] + rest));
      ScanQuoted(cell.text, rest, p.(quoted := true));
    } else {
      ScanBare(cell.text, rest, p);
    }
  }

  /** What the parser holds after all fields of a record but before its end. */
  function Held(cells: seq<Cell>, p: Parser): Parser
    requires cells != []
  {
    if |cells| == 1 then p.(field := cells[0].text)
    else Held(cells[1..], p.(row := p.row + [cells[0].text], field := []))
  }

  lemma {:induction false} HeldExact(cells: seq<Cell>, p: Parser)
    requires cells != []
    ensures var held := Held(cells, p);
            && held.rows == p.rows && held.row + [held.field] == p.row + TextsOf(cells)
            && held.field == cells[|cells| - 1].text && held.quoted == p.quoted
    decreases |cells|
  {
    if |cells| > 1 {
      HeldExact(cells[1..], p.(row := p.row + [cells[0].text], field := []));
      assert TextsOf(cells) == [cells[0].text] + TextsOf(cells[1..]);
    }
  }

  lemma {:induction false} ScanFields(cells: seq<Cell>, end: LineEnd, rest: Text, p: Parser)
    requires cells != [] && (forall cell <- cells :: Printable(cell)) && !p.quoted && p.field == []
    requires end.Missing? ==> rest == []
    ensures Scan(PrintRecord(cells, end) + rest, p) == Scan(PrintEnd(end) + rest, Held(cells, p))
    decreases |cells|
  {
    var text, tail := PrintCell(cells[0]), PrintEnd(end) + rest;
    assert Printable(cells[0]);
    if |cells| == 1 {
      Regroup(text, PrintEnd(end), rest);
      ScanCell(cells[0], tail, p);
    } else {
      var more := PrintRecord(cells[1..], end);
      Regroup(text, [COMMA] + more, rest);
      Regroup([COMMA], more, rest);
      ScanCell(cells[0], [COMMA] + (more + rest), p);
      ScanFields(cells[1..], end, rest, p.(row := p.row + [cells[0].text]));
    }
  }

  lemma ScanRecord(record: Record, rest: Text, p: Parser)
    requires PrintableRecord(record) && !p.quoted && p.field == [] && !record.end.Missing?
    ensures Scan(PrintRecord(record.cells, record.end) + rest, p)
              == Scan(rest, Parser(p.rows + [p.row + TextsOf(record.cells)], [], [], false))
  {
    ScanFields(record.cells, record.end, rest, p);
    HeldExact(record.cells, p);
  }

  /** The rows at the end of the input, an unfinished one included. */
  function Finished(p: Parser): seq<Row> {
    if p.field != [] || p.row != [] then p.rows + [p.row + [StripCr(p.field)]] else p.rows
  }

  lemma {:induction false} NonBlankAppend(rows: seq<Row>, last: Row)
    ensures NonBlank(rows + [last]) == NonBlank(rows) + if Blank(last) then [] else [last]
  {
    if rows == [] {
      assert rows + [last] == [last] && [last][1..] == [];
    } else {
      assert (rows + [last])[0] == rows[0] && (rows + [last])[1..] == rows[1..] + [last];
      NonBlankAppend(rows[1..], last);
    }
  }

  /** What is left at the end of the input is finished, or was a blank row. */
  lemma FinishedHeld(p: Parser)
    ensures NonBlank(Finished(p)) == NonBlank(p.rows + [p.row + [StripCr(p.field)]])
  {
    if p.field == [] && p.row == [] {
      assert p.row + [StripCr(p.field)] == [[]] && Blank([[]]);
      NonBlankAppend(p.rows, [[]]);
      assert NonBlank(p.rows) + [] == NonBlank(p.rows);
    }
  }

  lemma ScanLast(record: Record, p: Parser)
    requires PrintableRecord(record) && record.end.Missing? && !p.quoted && p.field == [] && p.row == []
    ensures var end := Scan(PrintRecord(record.cells, record.end), p);
            !end.quoted && NonBlank(Finished(end)) == NonBlank(p.rows + [TextsOf(record.cells)])
  {
    var cells := record.cells;
    var text := PrintRecord(cells, Missing);
    ScanFields(cells, Missing, [], p);
    assert text + [] == text && PrintEnd(Missing) + [] == [];
    HeldExact(cells, p);
    FinishedHeld(Held(cells, p));
    assert p.row + TextsOf(cells) == TextsOf(cells);
  }

  lemma FirstPrinted(records: seq<Record>)
    requires PrintableAll(records) && records != []
    ensures PrintableRecord(records[0]) && PrintableAll(records[1..])
    ensures Print(records) == PrintRecord(records[0].cells, records[0].end) + Print(records[1..])
    ensures records[0].end.Missing? ==> records[1..] == []
  {
    forall i | 0 <= i < |records| - 2
      ensures !records[1..][i].end.Missing?
    {
      assert records[1..][i] == records[i + 1];
    }
  }

  lemma {:induction false} ScanRecords(records: seq<Record>, p: Parser)
    requires PrintableAll(records)
    requires !p.quoted && p.field == [] && p.row == []
    ensures var end := Scan(Print(records), p);
            !end.quoted && NonBlank(Finished(end)) == NonBlank(p.rows + RowsOf(records))
    decreases |records|
  {
    if records == [] {
      assert p.rows + RowsOf(records) == p.rows;
    } else {
      var record, rest := records[0], records[1..];
      var row := TextsOf(record.cells);
      FirstPrinted(records);
      assert RowsOf(records) == [row] + RowsOf(rest);
      assert p.rows + [row] + RowsOf(rest) == p.rows + RowsOf(records);
      if record.end.Missing? {
        assert PrintRecord(record.cells, Missing) + Print(rest) == PrintRecord(record.cells, Missing);
        assert p.rows + [row] + RowsOf(rest) == p.rows + [row];
        ScanLast(record, p);
      } else {
        ScanRecord(record, Print(rest), p);
        assert p.row + row == row;
        ScanRecords(rest, Parser(p.rows + [row], [], [], false));
      }
    }
  }

  /**
   * Round trip: records printed with each field quoted, or bare when it needs no quotes, each ended by CRLF
   * or LF and the last perhaps by nothing, read back as they were, the blank ones dropped.
   */
  lemma PrintedReadsBack(records: seq<Record>)
    requires PrintableAll(records)
    ensures Parse(Print(records)) == Ok(NonBlank(RowsOf(records)))
    ensures (forall record <- records :: !Blank(TextsOf(record.cells))) ==> Parse(Print(records)) == Ok(RowsOf(records))
  {
    ScanRecords(records, START);
    assert [] + RowsOf(records) == RowsOf(records);
    if forall record <- records :: !Blank(TextsOf(record.cells)) {
      NothingDropped(RowsOf(records));
    }
  }

  lemma {:induction false} NothingDropped(rows: seq<Row>)
    requires forall row <- rows :: !Blank(row)
    ensures NonBlank(rows) == rows
  {
    if rows != [] {
      assert rows[0] in rows;
      NothingDropped(rows[1..]);
    }
  }

  /** Only rows in which nothing but white space was written are dropped, and all of them. */
  lemma {:induction false} DroppedExactly(rows: seq<Row>, row: Row)
    ensures row in NonBlank(rows) <==>
      row in rows && exists field <- row, u <- field ::
        !(0x09 <= u <= 0x0d) && u !in [0x20, 0xa0, 0x1680, 0x2028, 0x2029, 0x202f, 0x205f, 0x3000, 0xfeff]
        && !(0x2000 <= u <= 0x200a)
  {
    if rows != [] {
      DroppedExactly(rows[1..], row);
      assert row in rows <==> row == rows[0] || row in rows[1..];
    }
  }
}
