/** The CSV reader behind the seed scripts, and the round trips it owes section 2 of RFC 4180. */
module Csv {

  type Table = seq<seq<string>>

  // ─── The reader ────────────────────────────────────────────────────────────

  /** What the reading loop carries from one character to the next. */
  datatype Scan = Scan(rows: Table, row: seq<string>, field: string, inQuotes: bool)

  const START := Scan([], [], "", false)

  /** What one turn of the loop makes of the text still to come, and how many characters it takes. */
  datatype Turn = Turn(to: Scan, width: nat)

  function TakeTurn(s: string, at: Scan): (t: Turn)
    requires s != ""
    ensures 1 <= t.width <= |s|
  {
    if at.inQuotes then
      if s[0] == '"' && |s| > 1 && s[1] == '"' then Turn(at.(field := at.field + "\""), 2)
      else if s[0] == '"' then Turn(at.(inQuotes := false), 1)
      else Turn(at.(field := at.field + [s[0]]), 1)
    else if s[0] == '"' then Turn(at.(inQuotes := true), 1)
    else if s[0] == ',' then Turn(at.(row := at.row + [at.field], field := ""), 1)
    else if s[0] == '\r' && |s| > 1 && s[1] == '\n' then Turn(EndRow(at), 2)
    else if s[0] == '\n' then Turn(EndRow(at), 1)
    else Turn(at.(field := at.field + [s[0]]), 1)
  }

  /** The state after reading all of `s`. */
  function Read(s: string, at: Scan): Scan
    decreases |s|
  {
    if s == "" then at
    else var turn := TakeTurn(s, at); Read(s[turn.width..], turn.to)
  }

  function EndRow(at: Scan): Scan {
    Scan(at.rows + [at.row + [at.field]], [], "", at.inQuotes)
  }

  predicate SomeFilled(row: seq<string>) {
    exists i :: 0 <= i < |row| && row[i] != ""
  }

  /** What is left of an unterminated last line is a row only if some field in it is not empty. */
  function Finish(at: Scan): Table {
    if (at.field != "" || at.row != []) && SomeFilled(at.row + [at.field])
    then at.rows + [at.row + [at.field]]
    else at.rows
  }

  function Parse(content: string): Table {
    Finish(Read(content, START))
  }

  method SplitCsvRows(content: string) returns (rows: Table)
    ensures rows == Parse(content)
  {
    rows := [];
    var row: seq<string> := [];
    var field := "";
    var inQuotes := false;
    var i := 0;
    while i < |content|
      invariant i <= |content|
      invariant Read(content[i..], Scan(rows, row, field, inQuotes)) == Read(content, START)
    {
      var ch := content[i];
      var hasNext := i + 1 < |content|;
      assert content[i..][1..] == content[i + 1..];
      assert hasNext ==> content[i..][1] == content[i + 1] && content[i..][2..] == content[i + 2..];
      if inQuotes {
        if ch == '"' && hasNext && content[i + 1] == '"' {
          field := field + "\"";
          i := i + 1;
        } else if ch == '"' {
          inQuotes := false;
        } else {
          field := field + [ch];
        }
      } else {
        if ch == '"' {
          inQuotes := true;
        } else if ch == ',' {
          row := row + [field];
          field := "";
        } else if ch == '\r' && hasNext && content[i + 1] == '\n' {
          row := row + [field];
          field := "";
          rows := rows + [row];
          row := [];
          i := i + 1;
        } else if ch == '\n' {
          row := row + [field];
          field := "";
          rows := rows + [row];
          row := [];
        } else {
          field := field + [ch];
        }
      }
      i := i + 1;
    }
    assert content[i..] == "";
    if field != "" || row != [] {
      row := row + [field];
      if SomeFilled(row) {
        rows := rows + [row];
      }
    }
  }

  // ─── The same table by counting quotes ─────────────────────────────────────

  function Quotes(content: string, i: nat): nat
    requires i <= |content|
  {
    if i == 0 then 0 else Quotes(content, i - 1) + if content[i - 1] == '"' then 1 else 0
  }

  /** An even number of quotes stands before this place. */
  predicate Outside(content: string, i: nat)
    requires i <= |content|
  {
    Quotes(content, i) % 2 == 0
  }

  predicate EndsField(content: string, i: nat)
    requires i < |content|
  {
    content[i] == ',' && Outside(content, i)
  }

  predicate EndsLine(content: string, i: nat)
    requires i < |content|
  {
    content[i] == '\n' && Outside(content, i)
  }

  /** What a character adds to its field. Commas, line feeds and the carriage return before a line feed add
      nothing outside quotes, and a quote adds itself only there, right after another. */
  function Adds(content: string, i: nat): string
    requires i < |content|
  {
    if content[i] == '"' then if Outside(content, i) && i > 0 && content[i - 1] == '"' then "\"" else ""
    else if EndsField(content, i) || EndsLine(content, i) then ""
    else if content[i] == '\r' && i + 1 < |content| && EndsLine(content, i + 1) then ""
    else [content[i]]
  }

  /** The field, the row and the lines written by the first `i` characters. */
  function FieldAt(content: string, i: nat): string
    requires i <= |content|
  {
    if i == 0 || EndsField(content, i - 1) || EndsLine(content, i - 1) then ""
    else FieldAt(content, i - 1) + Adds(content, i - 1)
  }

  function RowAt(content: string, i: nat): seq<string>
    requires i <= |content|
  {
    if i == 0 || EndsLine(content, i - 1) then []
    else RowAt(content, i - 1) + if EndsField(content, i - 1) then [FieldAt(content, i - 1)] else []
  }

  function LinesAt(content: string, i: nat): Table
    requires i <= |content|
  {
    if i == 0 then []
    else
      LinesAt(content, i - 1)
      + if EndsLine(content, i - 1) then [RowAt(content, i - 1) + [FieldAt(content, i - 1)]] else []
  }

  function WrittenAt(content: string, i: nat): Scan
    requires i <= |content|
  {
    Scan(LinesAt(content, i), RowAt(content, i), FieldAt(content, i), !Outside(content, i))
  }

  /** A turn never starts between two quotes that belong together. */
  predicate BetweenTurns(content: string, i: nat)
    requires i <= |content|
  {
    Outside(content, i) && i > 0 && content[i - 1] == '"' ==> i == |content| || content[i] != '"'
  }

  /** What one character more makes of what is written. */
  lemma OneCharacter(content: string, i: nat)
    requires i < |content|
    ensures var at, c := WrittenAt(content, i), content[i];
      WrittenAt(content, i + 1)
        == if c == '"' then at.(field := at.field + Adds(content, i), inQuotes := !at.inQuotes)
           else if at.inQuotes then at.(field := at.field + [c])
           else if c == ',' then at.(row := at.row + [at.field], field := "")
           else if c == '\n' then EndRow(at)
           else at.(field := at.field + Adds(content, i))
  {
  }

  lemma OneTurn(content: string, i: nat)
    requires i < |content| && BetweenTurns(content, i)
    ensures var turn := TakeTurn(content[i..], WrittenAt(content, i));
      turn.to == WrittenAt(content, i + turn.width) && BetweenTurns(content, i + turn.width)
  {
    var s, at := content[i..], WrittenAt(content, i);
    assert at.field + "" == at.field;
    OneCharacter(content, i);
    if |s| > 1 {
      assert s[1] == content[i + 1];
      OneCharacter(content, i + 1);
    }
  }

  /** Reading from a turn on, with what is written so far, is reading the rest with what one turn more writes. */
  lemma ReadsOneTurn(content: string, i: nat) returns (j: nat)
    requires i < |content| && BetweenTurns(content, i)
    ensures i < j <= |content| && BetweenTurns(content, j)
    ensures Read(content[i..], WrittenAt(content, i)) == Read(content[j..], WrittenAt(content, j))
  {
    var turn := TakeTurn(content[i..], WrittenAt(content, i));
    OneTurn(content, i);
    j := i + turn.width;
    assert content[i..][turn.width..] == content[j..];
  }

  lemma {:induction false} ReadsOn(content: string, i: nat)
    requires i <= |content| && BetweenTurns(content, i)
    ensures Read(content[i..], WrittenAt(content, i)) == WrittenAt(content, |content|)
    decreases |content| - i
  {
    if i < |content| {
      var j := ReadsOneTurn(content, i);
      ReadsOn(content, j);
    }
  }

  lemma FinishLast(at: Scan)
    ensures Finish(at) == if SomeFilled(at.row + [at.field]) then EndRow(at).rows else at.rows
  {
    if at.field == "" && at.row == [] {
      assert at.row + [at.field] == [""];
    }
  }

  /** Whatever the content: a character is inside quotes exactly when an odd number of quotes stands before it, and
      the table is the lines, fields and characters that leaves, with an unterminated last line only if some field
      of it is not empty. */
  lemma {:induction false} ParseIs(content: string, lines: Table, last: seq<string>)
    requires lines == LinesAt(content, |content|)
    requires last == RowAt(content, |content|) + [FieldAt(content, |content|)]
    ensures (exists i :: 0 <= i < |last| && last[i] != "") ==> Parse(content) == lines + [last]
    ensures (forall i :: 0 <= i < |last| ==> last[i] == "") ==> Parse(content) == lines
  {
    assert content[0..] == content;
    assert WrittenAt(content, 0) == START;
    ReadsOn(content, 0);
    FinishLast(WrittenAt(content, |content|));
  }

  // ─── Every rendering RFC 4180 allows ───────────────────────────────────────

  /** One field as written: between quotes with inner quotes doubled, or bare. */
  datatype Cell = Cell(text: string, quoted: bool)

  /** One record as written, ended by CRLF or by a lone LF. */
  datatype Line = Line(cells: seq<Cell>, crlf: bool)

  /** A field may stand without quotes when it holds no quote, comma or line break. */
  predicate Bare(text: string) {
    forall i :: 0 <= i < |text| ==> text[i] !in ['"', ',', '\n', '\r']
  }

  predicate WellFormedCell(c: Cell) {
    !c.quoted ==> Bare(c.text)
  }

  predicate WellFormedLine(line: Line) {
    line.cells != [] && forall i :: 0 <= i < |line.cells| ==> WellFormedCell(line.cells[i])
  }

  predicate WellFormed(doc: seq<Line>) {
    forall i :: 0 <= i < |doc| ==> WellFormedLine(doc[i])
  }

  function Doubled(text: string): string {
    if text == "" then ""
    else (if text[0] == '"' then "\"\"" else [text[0]]) + Doubled(text[1..])
  }

  function PrintCell(c: Cell): string {
    if c.quoted then "\"" + Doubled(c.text) + "\"" else c.text
  }

  function PrintCells(cells: seq<Cell>): string
    requires cells != []
  {
    if |cells| == 1 then PrintCell(cells[0])
    else PrintCell(cells[0]) + "," + PrintCells(cells[1..])
  }

  function LineBreak(crlf: bool): string {
    if crlf then "\r\n" else "\n"
  }

  function PrintLine(line: Line): string
    requires WellFormedLine(line)
  {
    PrintCells(line.cells) + LineBreak(line.crlf)
  }

  function Print(doc: seq<Line>): string
    requires WellFormed(doc)
  {
    if doc == [] then "" else PrintLine(doc[0]) + Print(doc[1..])
  }

  function Texts(cells: seq<Cell>): (texts: seq<string>)
    ensures |texts| == |cells|
  {
    seq(|cells|, i requires 0 <= i < |cells| => cells[i].text)
  }

  function TableOf(doc: seq<Line>): Table {
    seq(|doc|, i requires 0 <= i < |doc| => Texts(doc[i].cells))
  }

  lemma TableOfHead(doc: seq<Line>)
    requires doc != []
    ensures TableOf(doc) == [Texts(doc[0].cells)] + TableOf(doc[1..])
  {
  }

  // ─── Reading back what was printed ─────────────────────────────────────────

  predicate NoLeadingQuote(rest: string) {
    rest != "" ==> rest[0] != '"'
  }

  lemma {:induction false} ReadQuotedBody(text: string, rest: string, at: Scan)
    requires at.inQuotes && NoLeadingQuote(rest)
    ensures Read(Doubled(text) + "\"" + rest, at) == Read(rest, at.(field := at.field + text, inQuotes := false))
  {
    var s := Doubled(text) + "\"" + rest;
    if text == "" {
      assert s[0] == '"' && s[1..] == rest;
      assert at.field + text == at.field;
    } else {
      var width := if text[0] == '"' then 2 else 1;
      assert s[width..] == Doubled(text[1..]) + "\"" + rest;
      ReadQuotedBody(text[1..], rest, at.(field := at.field + [text[0]]));
      assert at.field + [text[0]] + text[1..] == at.field + text;
    }
  }

  lemma {:induction false} ReadBareBody(text: string, rest: string, at: Scan)
    requires !at.inQuotes && Bare(text)
    ensures Read(text + rest, at) == Read(rest, at.(field := at.field + text))
  {
    if text == "" {
      assert text + rest == rest && at.field + text == at.field;
    } else {
      assert (text + rest)[1..] == text[1..] + rest;
      assert text[0] !in ['"', ',', '\n', '\r'];
      ReadBareBody(text[1..], rest, at.(field := at.field + [text[0]]));
      assert at.field + [text[0]] + text[1..] == at.field + text;
    }
  }

  lemma {:induction false} ReadCell(c: Cell, rest: string, rows: Table, row: seq<string>)
    requires WellFormedCell(c) && NoLeadingQuote(rest)
    ensures Read(PrintCell(c) + rest, Scan(rows, row, "", false)) == Read(rest, Scan(rows, row, c.text, false))
  {
    if c.quoted {
      var s := PrintCell(c) + rest;
      assert s[1..] == Doubled(c.text) + "\"" + rest;
      ReadQuotedBody(c.text, rest, Scan(rows, row, "", true));
    } else {
      ReadBareBody(c.text, rest, Scan(rows, row, "", false));
    }
    assert "" + c.text == c.text;
  }

  lemma {:induction false} ReadComma(rest: string, at: Scan)
    requires !at.inQuotes
    ensures Read("," + rest, at) == Read(rest, at.(row := at.row + [at.field], field := ""))
  {
    assert ("," + rest)[1..] == rest;
  }

  lemma {:induction false} ReadBreak(crlf: bool, rest: string, at: Scan)
    requires !at.inQuotes
    ensures Read(LineBreak(crlf) + rest, at) == Read(rest, EndRow(at))
  {
    assert (LineBreak(crlf) + rest)[|LineBreak(crlf)|..] == rest;
  }

  lemma Assoc(a: string, b: string, c: string)
    ensures a + b + c == a + (b + c)
  {
  }

  lemma {:induction false} PrintCellsStep(cells: seq<Cell>, rest: string)
    requires |cells| > 1
    ensures PrintCells(cells) + rest == PrintCell(cells[0]) + ("," + (PrintCells(cells[1..]) + rest))
  {
  }

  function AllButLast(row: seq<string>): seq<string>
    requires row != []
  {
    row[..|row| - 1]
  }

  lemma TextsStep(cells: seq<Cell>, row: seq<string>)
    requires |cells| > 1
    ensures row + [cells[0].text] + AllButLast(Texts(cells[1..])) == row + AllButLast(Texts(cells))
  {
    assert Texts(cells) == [cells[0].text] + Texts(cells[1..]);
  }

  function AtLastCell(cells: seq<Cell>, rows: Table, row: seq<string>): Scan
    requires cells != []
  {
    Scan(rows, row + AllButLast(Texts(cells)), cells[|cells| - 1].text, false)
  }

  /** One cell and its comma. */
  lemma {:induction false} ReadFirst(cells: seq<Cell>, rest: string, rows: Table, row: seq<string>)
    requires |cells| > 1 && WellFormedCell(cells[0])
    ensures Read(PrintCells(cells) + rest, Scan(rows, row, "", false))
         == Read(PrintCells(cells[1..]) + rest, Scan(rows, row + [cells[0].text], "", false))
  {
    var tail := PrintCells(cells[1..]) + rest;
    PrintCellsStep(cells, rest);
    ReadCell(cells[0], "," + tail, rows, row);
    ReadComma(tail, Scan(rows, row, cells[0].text, false));
  }

  lemma {:induction false} ReadCells(cells: seq<Cell>, rest: string, rows: Table, row: seq<string>)
    requires cells != [] && (forall i :: 0 <= i < |cells| ==> WellFormedCell(cells[i])) && NoLeadingQuote(rest)
    ensures Read(PrintCells(cells) + rest, Scan(rows, row, "", false)) == Read(rest, AtLastCell(cells, rows, row))
  {
    if |cells| == 1 {
      ReadCell(cells[0], rest, rows, row);
      assert row + AllButLast(Texts(cells)) == row;
    } else {
      ReadFirst(cells, rest, rows, row);
      ReadCells(cells[1..], rest, rows, row + [cells[0].text]);
      TextsStep(cells, row);
    }
  }

  lemma WholeRow(cells: seq<Cell>, rows: Table)
    requires cells != []
    ensures EndRow(AtLastCell(cells, rows, [])) == Scan(rows + [Texts(cells)], [], "", false)
    ensures var at := AtLastCell(cells, rows, []); at.row + [at.field] == Texts(cells)
  {
    assert [] + AllButLast(Texts(cells)) + [cells[|cells| - 1].text] == Texts(cells);
  }

  lemma {:induction false} ReadLine(line: Line, rest: string, rows: Table)
    requires WellFormedLine(line)
    ensures Read(PrintLine(line) + rest, Scan(rows, [], "", false))
         == Read(rest, Scan(rows + [Texts(line.cells)], [], "", false))
  {
    var br := LineBreak(line.crlf);
    Assoc(PrintCells(line.cells), br, rest);
    ReadCells(line.cells, br + rest, rows, []);
    ReadBreak(line.crlf, rest, AtLastCell(line.cells, rows, []));
    WholeRow(line.cells, rows);
  }

  lemma {:induction false} ReadDocument(doc: seq<Line>, rest: string, rows: Table)
    requires WellFormed(doc)
    ensures Read(Print(doc) + rest, Scan(rows, [], "", false)) == Read(rest, Scan(rows + TableOf(doc), [], "", false))
  {
    if doc == [] {
      assert Print(doc) + rest == rest && rows + TableOf(doc) == rows;
    } else {
      var tail := Print(doc[1..]) + rest;
      var first := Texts(doc[0].cells);
      assert Print(doc) + rest == PrintLine(doc[0]) + tail;
      ReadLine(doc[0], tail, rows);
      ReadDocument(doc[1..], rest, rows + [first]);
      TableOfHead(doc);
      assert rows + [first] + TableOf(doc[1..]) == rows + ([first] + TableOf(doc[1..]));
    }
  }

  /** Round trip: whatever mixture of quoted and bare fields and of line ends a document uses, reading
      it gives its table back. */
  lemma {:induction false} RoundTrip(doc: seq<Line>)
    requires WellFormed(doc)
    ensures Parse(Print(doc)) == TableOf(doc)
  {
    ReadDocument(doc, "", []);
    assert Print(doc) + "" == Print(doc);
    assert [] + TableOf(doc) == TableOf(doc);
  }

  /** Without the last line end nothing changes, except that a last line of nothing but empty fields
      is dropped. */
  lemma {:induction false} RoundTripUnterminated(doc: seq<Line>, last: Line)
    requires WellFormed(doc) && WellFormedLine(last)
    ensures Parse(Print(doc) + PrintCells(last.cells))
         == if SomeFilled(Texts(last.cells)) then TableOf(doc) + [Texts(last.cells)] else TableOf(doc)
  {
    var table, tail := TableOf(doc), PrintCells(last.cells);
    ReadDocument(doc, tail, []);
    assert [] + table == table;
    ReadCells(last.cells, "", table, []);
    assert tail + "" == tail;
    WholeRow(last.cells, table);
    FinishLast(AtLastCell(last.cells, table, []));
  }

  // ─── Parse, print, parse ───────────────────────────────────────────────────

  predicate RowsFilled(t: Table) {
    forall i :: 0 <= i < |t| ==> t[i] != []
  }

  lemma {:induction false} ReadKeepsRowsFilled(s: string, at: Scan)
    requires RowsFilled(at.rows)
    ensures RowsFilled(Read(s, at).rows)
    decreases |s|
  {
    if s != "" {
      var turn := TakeTurn(s, at);
      assert RowsFilled(EndRow(at).rows);
      ReadKeepsRowsFilled(s[turn.width..], turn.to);
    }
  }

  function QuotedCells(row: seq<string>): seq<Cell> {
    seq(|row|, i requires 0 <= i < |row| => Cell(row[i], true))
  }

  /** The plainest rendering: every field quoted, every row ended by CRLF. */
  function Canonical(t: Table): (doc: seq<Line>)
    requires RowsFilled(t)
    ensures WellFormed(doc) && TableOf(doc) == t
  {
    var doc := seq(|t|, i requires 0 <= i < |t| => Line(QuotedCells(t[i]), true));
    assert forall i :: 0 <= i < |t| ==> Texts(doc[i].cells) == t[i];
    assert TableOf(doc) == t;
    doc
  }

  /** For any content at all, however malformed: it has a table of non-empty rows, and printing that
      table and reading it again changes nothing. */
  lemma ParsePrintParse(content: string)
    ensures RowsFilled(Parse(content))
    ensures Parse(Print(Canonical(Parse(content)))) == Parse(content)
  {
    ReadKeepsRowsFilled(content, START);
    RoundTrip(Canonical(Parse(content)));
  }
}
