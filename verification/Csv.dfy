/** CSV files (section 2 of RFC 4180): the results printer and the parser that reads them back. */
module Csv {
  // ---- Printing ------------------------------------------------------------------------------

  /** A cell's value: nothing, text, or anything else as it reads in text. */
  datatype Cell = Empty | Text(s: string) | Other(s: string)

  const BOM := '\U{FEFF}'

  predicate Formula(s: string) { s != "" && s[0] in "=+-@\t\r" }

  /** What a cell says. An apostrophe keeps text from being taken for a formula. */
  function Shown(c: Cell): string {
    match c
    case Empty => ""
    case Text(s) => if Formula(s) then "'" + s else s
    case Other(s) => s
  }

  /** No text cell starts with a character that makes a spreadsheet run it. */
  lemma TextIsNoFormula(s: string)
    ensures var shown := Shown(Text(s));
            && (shown != "" ==> shown[0] !in {'=', '+', '-', '@', '\t', '\r'})
            && (shown == s || shown == "'" + s)
            && (shown != s <==> s != "" && s[0] in {'=', '+', '-', '@', '\t', '\r'})
  {
  }

  predicate Special(ch: char) { ch in "\",\r\n" }

  predicate NeedsQuotes(s: string) { exists ch <- s :: Special(ch) }

  function DoubledChar(ch: char): string { if ch == '"' then "\"\"" else [ch] }

  /** Every quote doubled. */
  function Doubled(s: string): string {
    if s == "" then "" else DoubledChar(s[0]) + Doubled(s[1..])
  }

  function CsvCell(c: Cell): string {
    var s := Shown(c);
    if NeedsQuotes(s) then "\"" + Doubled(s) + "\"" else s
  }

  function Joined(cells: seq<Cell>): string {
    if cells == [] then ""
    else if |cells| == 1 then CsvCell(cells[0])
    else CsvCell(cells[0]) + "," + Joined(cells[1..])
  }

  function Line(cells: seq<Cell>): string { Joined(cells) + "\r\n" }

  function Lines(table: seq<seq<Cell>>): string {
    if table == [] then "" else Line(table[0]) + Lines(table[1..])
  }

  const HEADER := ["Name", "Email", "Status", "Joined", "Completed", "Overall", "Band", "Confidence", "Score revision", "Flagged"]

  function Texts(s: seq<string>): seq<Cell> { seq(|s|, i requires 0 <= i < |s| => Text(s[i])) }

  function HeaderCells(dimensions: seq<string>): seq<Cell> { Texts(HEADER) + Texts(dimensions) + [Text("Interview id")] }

  /** A row of results: the fixed columns, one score for each dimension, and the interview. */
  datatype ResultRow = ResultRow(
    name: Cell, email: Cell, status: Cell, joined: Cell, completed: Cell, overall: Cell, band: Cell, confidence: Cell,
    revision: Cell, flagged: bool, scores: seq<Cell>, interview: Cell)

  function RowCells(r: ResultRow): seq<Cell> {
    [r.name, r.email, r.status, r.joined, r.completed, r.overall, r.band, r.confidence, r.revision,
     Text(if r.flagged then "yes" else "no")] + r.scores + [r.interview]
  }

  function RowsCells(rows: seq<ResultRow>): seq<seq<Cell>> {
    seq(|rows|, i requires 0 <= i < |rows| => RowCells(rows[i]))
  }

  function Header(dimensions: seq<string>): string { [BOM] + Line(HeaderCells(dimensions)) }

  function Concat(chunks: seq<string>): string {
    if chunks == [] then "" else Concat(chunks[..|chunks| - 1]) + chunks[|chunks| - 1]
  }

  lemma AppendBoth(a: string, b: string, c: string, d: string, e: string)
    requires a + b == c + d
    ensures a + (b + e) == c + (d + e)
  {
    assert a + (b + e) == (a + b) + e;
    assert c + (d + e) == (c + d) + e;
  }

  lemma EmptyFront<T>(a: seq<T>, b: seq<T>)
    requires |a| == 0
    ensures a + b == b
  {
  }

  lemma ConcatAppend(chunks: seq<string>, chunk: string)
    ensures Concat(chunks + [chunk]) == Concat(chunks) + chunk
  {
    assert (chunks + [chunk])[..|chunks|] == chunks;
  }

  lemma LinesAppend(table: seq<seq<Cell>>, row: seq<Cell>)
    ensures Lines(table + [row]) == Lines(table) + Line(row)
  {
    if table == [] {
      assert table + [row] == [row] && [row][1..] == [];
    } else {
      assert (table + [row])[1..] == table[1..] + [row];
      LinesAppend(table[1..], row);
    }
  }

  /** Writes the header, and then the lines some at a time. */
  method InBatches(header: string, table: seq<seq<Cell>>, batchRows: nat) returns (chunks: seq<string>)
    requires batchRows > 0
    ensures Concat(chunks) == header + Lines(table)
  {
    chunks := [header];
    ConcatAppend([], header);
    EmptyFront([], [header]);
    EmptyFront(Concat([]), header);
    var batch := "";
    var n := 0;
    assert table[..0] == [];
    while n < |table|
      invariant 0 <= n <= |table|
      invariant Concat(chunks) + batch == header + Lines(table[..n])
    {
      LinesAppend(table[..n], table[n]);
      assert table[..n + 1] == table[..n] + [table[n]];
      AppendBoth(Concat(chunks), batch, header, Lines(table[..n]), Line(table[n]));
      batch := batch + Line(table[n]);
      n := n + 1;
      if n % batchRows == 0 {
        ConcatAppend(chunks, batch);
        chunks := chunks + [batch];
        batch := "";
      }
    }
    assert table[..n] == table;
    if batch != "" {
      ConcatAppend(chunks, batch);
      chunks := chunks + [batch];
    }
  }

  method ResultsCsv(dimensions: seq<string>, rows: seq<ResultRow>, batchRows: nat) returns (chunks: seq<string>)
    requires batchRows > 0
    ensures Concat(chunks) == Header(dimensions) + Lines(RowsCells(rows))
  {
    chunks := InBatches(Header(dimensions), RowsCells(rows), batchRows);
  }

  // ---- Parsing -------------------------------------------------------------------------------

  datatype Reader = Reader(rows: seq<seq<string>>, row: seq<string>, cell: string, quoted: bool)

  /** What one character does, and how many characters it takes. */
  function ReadOne(input: string, r: Reader): (Reader, nat)
    requires input != ""
  {
    var ch := input[0];
    if r.quoted then
      if ch == '"' && |input| > 1 && input[1] == '"' then (r.(cell := r.cell + "\""), 2)
      else if ch == '"' then (r.(quoted := false), 1)
      else (r.(cell := r.cell + [ch]), 1)
    else if ch == '"' && r.cell == "" then (r.(quoted := true), 1)
    else if ch == ',' then (r.(row := r.row + [r.cell], cell := ""), 1)
    else if ch == '\n' || ch == '\r' then
      (Reader(r.rows + [r.row + [r.cell]], [], "", false), if ch == '\r' && |input| > 1 && input[1] == '\n' then 2 else 1)
    else (r.(cell := r.cell + [ch]), 1)
  }

  function ReadAll(input: string, r: Reader): Reader
    decreases |input|
  {
    if input == "" then r
    else
      var (r', n) := ReadOne(input, r);
      ReadAll(input[n..], r')
  }

  function Finish(r: Reader): seq<seq<string>> {
    if r.cell != "" || r.row != [] then r.rows + [r.row + [r.cell]] else r.rows
  }

  const START := Reader([], [], "", false)

  function WithoutBom(text: string): string {
    if text != "" && text[0] == BOM then text[1..] else text
  }

  function Parsed(text: string): seq<seq<string>> { Finish(ReadAll(WithoutBom(text), START)) }

  method ParseCsvRows(text: string) returns (rows: seq<seq<string>>)
    ensures rows == Parsed(text)
  {
    rows := [];
    var row: seq<string> := [];
    var cell := "";
    var quoted := false;
    var input := WithoutBom(text);
    var i := 0;
    while i < |input|
      invariant 0 <= i <= |input|
      invariant ReadAll(input[i..], Reader(rows, row, cell, quoted)) == ReadAll(input, START)
    {
      var ch := input[i];
      ghost var rest := input[i..];
      ghost var step := ReadOne(rest, Reader(rows, row, cell, quoted));
      assert rest[step.1..] == input[i + step.1..];
      if quoted {
        if ch == '"' && i + 1 < |input| && input[i + 1] == '"' {
          cell := cell + "\"";
          i := i + 1;
        } else if ch == '"' {
          quoted := false;
        } else {
          cell := cell + [ch];
        }
      } else if ch == '"' && cell == "" {
        quoted := true;
      } else if ch == ',' {
        row := row + [cell];
        cell := "";
      } else if ch == '\n' || ch == '\r' {
        if ch == '\r' && i + 1 < |input| && input[i + 1] == '\n' { i := i + 1; }
        row := row + [cell];
        rows := rows + [row];
        row := [];
        cell := "";
      } else {
        cell := cell + [ch];
      }
      i := i + 1;
    }
    if cell != "" || row != [] {
      row := row + [cell];
      rows := rows + [row];
    }
  }

  // ---- The round trip --------------------------------------------------------------------------

  lemma ReadStep(input: string, r: Reader)
    requires input != ""
    ensures ReadAll(input, r) == ReadAll(input[ReadOne(input, r).1..], ReadOne(input, r).0)
  {
  }

  /** Text without special characters is read as it stands. */
  lemma {:induction false} PlainIsRead(s: string, rest: string, r: Reader)
    requires !NeedsQuotes(s) && !r.quoted
    ensures ReadAll(s + rest, r) == ReadAll(rest, r.(cell := r.cell + s))
  {
    if s == "" {
      assert s + rest == rest && r.cell + s == r.cell;
    } else {
      assert Special(s[0]) ==> NeedsQuotes(s);
      forall ch | ch in s[1..] ensures !Special(ch) { assert ch in s; }
      assert (s + rest)[1..] == s[1..] + rest;
      ReadStep(s + rest, r);
      PlainIsRead(s[1..], rest, r.(cell := r.cell + [s[0]]));
      assert r.cell + [s[0]] + s[1..] == r.cell + s;
    }
  }

  /** Inside quotes one character is read back from its doubled form. */
  lemma QuotedCharIsRead(ch: char, rest: string, r: Reader)
    requires r.quoted
    ensures ReadAll(DoubledChar(ch) + rest, r) == ReadAll(rest, r.(cell := r.cell + [ch]))
  {
    var input := DoubledChar(ch) + rest;
    ReadStep(input, r);
    assert input[|DoubledChar(ch)|..] == rest;
  }

  /** Inside quotes any text is read back from its doubled form, up to the closing quote. */
  lemma {:induction false} QuotedIsRead(s: string, rest: string, r: Reader)
    requires r.quoted && (rest == "" || rest[0] != '"')
    ensures ReadAll(Doubled(s) + "\"" + rest, r) == ReadAll(rest, r.(cell := r.cell + s, quoted := false))
    decreases |s|
  {
    if s == "" {
      var input := "\"" + rest;
      assert Doubled(s) + "\"" + rest == input && input[1..] == rest && r.cell + s == r.cell;
      ReadStep(input, r);
    } else {
      hide ReadOne, ReadAll;
      var tail := Doubled(s[1..]) + "\"" + rest;
      assert Doubled(s) + "\"" + rest == DoubledChar(s[0]) + tail;
      QuotedCharIsRead(s[0], tail, r);
      QuotedIsRead(s[1..], rest, r.(cell := r.cell + [s[0]]));
      assert r.cell + [s[0]] + s[1..] == r.cell + s;
    }
  }

  lemma OpenQuote(body: string, r: Reader)
    requires !r.quoted && r.cell == ""
    ensures ReadAll("\"" + body, r) == ReadAll(body, r.(quoted := true))
  {
    var input := "\"" + body;
    ReadStep(input, r);
    assert input[1..] == body;
  }

  lemma QuotedCell(s: string, rest: string)
    ensures "\"" + Doubled(s) + "\"" + rest == "\"" + (Doubled(s) + "\"" + rest)
  {
  }

  /** A printed cell is read back as what it says, up to the comma or line end after it. */
  lemma CellIsRead(c: Cell, rest: string, r: Reader)
    requires !r.quoted && r.cell == "" && (rest == "" || rest[0] in ",\r\n")
    ensures ReadAll(CsvCell(c) + rest, r) == ReadAll(rest, r.(cell := Shown(c)))
  {
    hide ReadAll, Doubled, Shown;
    var s := Shown(c);
    assert r.cell + s == s;
    if NeedsQuotes(s) {
      QuotedCell(s, rest);
      OpenQuote(Doubled(s) + "\"" + rest, r);
      QuotedIsRead(s, rest, r.(quoted := true));
    } else {
      PlainIsRead(s, rest, r);
    }
  }

  /** A cell without commas, quotes and line breaks is printed as it stands, any other in quotes. */
  lemma PrintedPlainIff(c: Cell)
    ensures CsvCell(c) == Shown(c) <==> forall ch <- Shown(c) :: ch !in {',', '"', '\r', '\n'}
    ensures CsvCell(c) != Shown(c) ==> CsvCell(c)[0] == '"' && CsvCell(c)[|CsvCell(c)| - 1] == '"' && |CsvCell(c)| > |Shown(c)|
  {
    DoubledIsLonger(Shown(c));
  }

  lemma DoubledIsLonger(s: string)
    ensures |Doubled(s)| >= |s|
  {
  }

  function ShownRow(cells: seq<Cell>): seq<string> { seq(|cells|, i requires 0 <= i < |cells| => Shown(cells[i])) }

  function ShownTable(table: seq<seq<Cell>>): seq<seq<string>> {
    seq(|table|, i requires 0 <= i < |table| => ShownRow(table[i]))
  }

  lemma RowCons(row: seq<string>, cells: seq<Cell>)
    requires |cells| > 1
    ensures row + [Shown(cells[0])] + ShownRow(cells[1..])[..|cells| - 2] == row + ShownRow(cells)[..|cells| - 1]
  {
    assert ShownRow(cells) == [Shown(cells[0])] + ShownRow(cells[1..]);
  }

  lemma CommaIsRead(body: string, r: Reader)
    requires !r.quoted
    ensures ReadAll("," + body, r) == ReadAll(body, r.(row := r.row + [r.cell], cell := ""))
  {
    var input := "," + body;
    ReadStep(input, r);
    assert input[1..] == body;
  }

  lemma Reassociated(a: string, b: string, c: string, d: string)
    ensures a + b + c + d == a + (b + (c + d))
  {
  }

  /** A row is read cell by cell; its last cell is open until the line ends. */
  lemma {:induction false} RowIsRead(cells: seq<Cell>, rest: string, r: Reader)
    requires cells != [] && !r.quoted && r.cell == "" && (rest == "" || rest[0] in "\r\n")
    ensures ReadAll(Joined(cells) + rest, r) ==
            ReadAll(rest, r.(row := r.row + ShownRow(cells)[..|cells| - 1], cell := Shown(cells[|cells| - 1])))
    decreases |cells|
  {
    hide ReadAll, CsvCell, Shown;
    if |cells| == 1 {
      CellIsRead(cells[0], rest, r);
      assert r.row + ShownRow(cells)[..0] == r.row;
    } else {
      var tail := Joined(cells[1..]) + rest;
      Reassociated(CsvCell(cells[0]), ",", Joined(cells[1..]), rest);
      CellIsRead(cells[0], "," + tail, r);
      CommaIsRead(tail, r.(cell := Shown(cells[0])));
      RowIsRead(cells[1..], rest, r.(row := r.row + [Shown(cells[0])]));
      RowCons(r.row, cells);
    }
  }

  predicate LineEnd(end: string) { end == "\n" || end == "\r" || end == "\r\n" }

  lemma EndIsRead(end: string, rest: string, r: Reader)
    requires LineEnd(end) && !r.quoted && (end == "\r" ==> rest == "" || rest[0] != '\n')
    ensures ReadAll(end + rest, r) == ReadAll(rest, Reader(r.rows + [r.row + [r.cell]], [], "", false))
  {
    var input := end + rest;
    ReadStep(input, r);
    assert input[|end|..] == rest;
  }

  /** Rows that each end with this line end. */
  function LinesWith(table: seq<seq<Cell>>, end: string): string {
    if table == [] then "" else Joined(table[0]) + end + LinesWith(table[1..], end)
  }

  lemma {:induction false} LinesAreWith(table: seq<seq<Cell>>)
    ensures Lines(table) == LinesWith(table, "\r\n")
  {
    if table != [] { LinesAreWith(table[1..]); }
  }

  /** No row begins with a line break. */
  lemma RowBegins(cells: seq<Cell>)
    ensures Joined(cells) == "" || Joined(cells)[0] !in "\r\n"
  {
    if cells != [] {
      var s := Shown(cells[0]);
      assert s != "" ==> s[0] in s;
    }
  }

  lemma LinesBegin(table: seq<seq<Cell>>, end: string)
    requires end == "\r"
    ensures LinesWith(table, end) == "" || LinesWith(table, end)[0] != '\n'
  {
    if table != [] { RowBegins(table[0]); }
  }

  lemma WholeRow(row: seq<string>, cells: seq<Cell>)
    requires cells != []
    ensures row + ShownRow(cells)[..|cells| - 1] + [Shown(cells[|cells| - 1])] == row + ShownRow(cells)
  {
    assert ShownRow(cells)[..|cells| - 1] + [Shown(cells[|cells| - 1])] == ShownRow(cells);
  }

  lemma {:induction false} LinesAreRead(table: seq<seq<Cell>>, end: string, rest: string, r: Reader)
    requires (forall row <- table :: row != []) && LineEnd(end) && r.row == [] && !r.quoted && r.cell == ""
    requires end == "\r" ==> rest == "" || rest[0] != '\n'
    ensures ReadAll(LinesWith(table, end) + rest, r) == ReadAll(rest, r.(rows := r.rows + ShownTable(table)))
    decreases |table|
  {
    hide ReadAll, Joined, Shown;
    if table == [] {
      assert r.rows + ShownTable(table) == r.rows && LinesWith(table, end) + rest == rest;
    } else {
      var tail := LinesWith(table[1..], end) + rest;
      var n := |table[0]| - 1;
      assert table[0] in table && forall row <- table[1..] :: row in table;
      Reassociated(Joined(table[0]), end, LinesWith(table[1..], end), rest);
      if end == "\r" { LinesBegin(table[1..], end); }
      RowIsRead(table[0], end + tail, r);
      EndIsRead(end, tail, r.(row := r.row + ShownRow(table[0])[..n], cell := Shown(table[0][n])));
      WholeRow(r.row, table[0]);
      EmptyFront(r.row, ShownRow(table[0]));
      LinesAreRead(table[1..], end, rest, Reader(r.rows + [ShownRow(table[0])], [], "", false));
      ShownCons(table[0], table[1..]);
      assert [table[0]] + table[1..] == table;
      assert r.rows + [ShownRow(table[0])] + ShownTable(table[1..]) == r.rows + ([ShownRow(table[0])] + ShownTable(table[1..]));
    }
  }

  /** Rows with any one kind of line end are read back, with or without a byte order mark. The last row need not
      be ended, unless it is a single empty cell: exactly then it cannot be seen. */
  lemma AnyTextIsRead(table: seq<seq<Cell>>, last: seq<Cell>, end: string, marked: bool)
    requires (forall row <- table :: row != []) && last != [] && LineEnd(end)
    ensures var ended := LinesWith(table, end);
            var mark := if marked then [BOM] else "";
            (marked || ended == "" || ended[0] != BOM ==> Parsed(mark + ended) == ShownTable(table))
    ensures var open := LinesWith(table, end) + Joined(last);
            Parsed([BOM] + open) == ShownTable(table) + if last == [last[0]] && Shown(last[0]) == "" then [] else [ShownRow(last)]
  {
    hide ReadAll, Joined;
    var ended, open := LinesWith(table, end), LinesWith(table, end) + Joined(last);
    assert ([BOM] + ended)[1..] == ended && ([BOM] + open)[1..] == open && "" + ended == ended;
    LinesAreRead(table, end, "", START);
    assert ended + "" == ended && [] + ShownTable(table) == ShownTable(table);
    assert ReadAll("", START.(rows := ShownTable(table))) == START.(rows := ShownTable(table)) by { NothingLeft(START.(rows := ShownTable(table))); }
    RowBegins(last);
    LinesAreRead(table, end, Joined(last), START);
    OpenRow(last, START.(rows := ShownTable(table)));
  }

  lemma NothingLeft(r: Reader)
    ensures ReadAll("", r) == r
  {
  }

  lemma OpenRow(cells: seq<Cell>, r: Reader)
    requires cells != [] && !r.quoted && r.cell == "" && r.row == []
    ensures Finish(ReadAll(Joined(cells), r)) == r.rows + if cells == [cells[0]] && Shown(cells[0]) == "" then [] else [ShownRow(cells)]
  {
    var n := |cells| - 1;
    RowIsRead(cells, "", r);
    assert Joined(cells) + "" == Joined(cells);
    NothingLeft(r.(row := r.row + ShownRow(cells)[..n], cell := Shown(cells[n])));
    WholeRow(r.row, cells);
    EmptyFront(r.row, ShownRow(cells));
    assert n > 0 ==> ShownRow(cells)[..n] != [];
  }

  /** Parsing a printed table of non-empty rows gives back what its cells say, whatever quotes,
      commas and line breaks they contain. */
  lemma TableRoundTrip(table: seq<seq<Cell>>)
    requires forall row <- table :: row != []
    ensures Parsed([BOM] + Lines(table)) == ShownTable(table)
  {
    LinesAreWith(table);
    AnyTextIsRead(table, [Empty], "\r\n", true);
  }

  /** The exported results, however batched, parse to the header and the rows. */
  lemma ResultsRoundTrip(dimensions: seq<string>, rows: seq<ResultRow>, chunks: seq<string>)
    requires Concat(chunks) == Header(dimensions) + Lines(RowsCells(rows))
    ensures Parsed(Concat(chunks)) == [ShownRow(HeaderCells(dimensions))] + ShownTable(RowsCells(rows))
  {
    assert HeaderCells(dimensions) != [];
    HeaderRoundTrip(HeaderCells(dimensions), RowsCells(rows), Concat(chunks));
  }

  lemma HeaderRoundTrip(header: seq<Cell>, table: seq<seq<Cell>>, text: string)
    requires header != [] && (forall row <- table :: row != []) && text == [BOM] + Line(header) + Lines(table)
    ensures Parsed(text) == [ShownRow(header)] + ShownTable(table)
  {
    LinesCons(header, table);
    MergeFront([BOM], Line(header), Lines(table));
    assert forall row <- [header] + table :: row != [];
    TableRoundTrip([header] + table);
    ShownCons(header, table);
  }

  lemma LinesCons(row: seq<Cell>, table: seq<seq<Cell>>)
    ensures Lines([row] + table) == Line(row) + Lines(table)
  {
    assert ([row] + table)[1..] == table;
  }

  lemma MergeFront(a: string, b: string, c: string)
    ensures a + b + c == a + (b + c)
  {
  }

  lemma ShownCons(row: seq<Cell>, table: seq<seq<Cell>>)
    ensures ShownTable([row] + table) == [ShownRow(row)] + ShownTable(table)
  {
  }

  /** The label of a column, and what a row has there. */
  lemma HeaderAt(dimensions: seq<string>, i: nat)
    requires i < |dimensions| + 11
    ensures |HeaderCells(dimensions)| == |dimensions| + 11
    ensures HeaderCells(dimensions)[i] ==
            Text(if i < 10 then HEADER[i] else if i < 10 + |dimensions| then dimensions[i - 10] else "Interview id")
  {
    assert |HEADER| == 10;
  }

  lemma RowAt(r: ResultRow, i: nat)
    requires i < |r.scores| + 11
    ensures |RowCells(r)| == |r.scores| + 11
    ensures 10 <= i ==> RowCells(r)[i] == if i < 10 + |r.scores| then r.scores[i - 10] else r.interview
  {
  }

  lemma FirstColumns(dimensions: seq<string>)
    ensures |HeaderCells(dimensions)| >= 10
    ensures HeaderCells(dimensions)[..10] ==
            [Text("Name"), Text("Email"), Text("Status"), Text("Joined"), Text("Completed"),
             Text("Overall"), Text("Band"), Text("Confidence"), Text("Score revision"), Text("Flagged")]
  {
    assert |Texts(HEADER)| == 10;
    assert HeaderCells(dimensions)[..10] == Texts(HEADER);
  }

  lemma FirstCells(r: ResultRow)
    ensures |RowCells(r)| >= 10
    ensures RowCells(r)[..9] == [r.name, r.email, r.status, r.joined, r.completed, r.overall, r.band, r.confidence, r.revision]
    ensures RowCells(r)[9] == Text(if r.flagged then "yes" else "no")
  {
  }

  /** Every value stands under its column: the fixed ones, a score under each dimension, the interview last. */
  lemma ColumnsLineUp(dimensions: seq<string>, r: ResultRow)
    requires |r.scores| == |dimensions|
    ensures var h, c := HeaderCells(dimensions), RowCells(r);
            && |h| == |c| == |dimensions| + 11
            && h[..10] == [Text("Name"), Text("Email"), Text("Status"), Text("Joined"), Text("Completed"),
                           Text("Overall"), Text("Band"), Text("Confidence"), Text("Score revision"), Text("Flagged")]
            && c[..9] == [r.name, r.email, r.status, r.joined, r.completed, r.overall, r.band, r.confidence, r.revision]
            && c[9] == Text(if r.flagged then "yes" else "no")
            && (forall i :: 0 <= i < |dimensions| ==> h[10 + i] == Text(dimensions[i]) && c[10 + i] == r.scores[i])
            && h[|h| - 1] == Text("Interview id") && c[|c| - 1] == r.interview
  {
    hide HeaderCells, RowCells;
    HeaderAt(dimensions, 10 + |dimensions|);
    RowAt(r, 10 + |dimensions|);
    FirstColumns(dimensions);
    FirstCells(r);
    forall i | 0 <= i < |dimensions| ensures HeaderCells(dimensions)[10 + i] == Text(dimensions[i]) && RowCells(r)[10 + i] == r.scores[i] {
      HeaderAt(dimensions, 10 + i);
      RowAt(r, 10 + i);
    }
  }
}
