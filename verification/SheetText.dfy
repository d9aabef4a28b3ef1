/** The annotated CSV text of a sheet: rows marked `[row=N]`, each an RFC 4180 record that may span lines. */
module SheetText {
  import opened Basics
  import opened Text

  // ---- lines ----

  /** The characters `str.splitlines()` ends a line at; a carriage return takes a following line feed with it. */
  predicate IsLineBreak(c: char) {
    || '\n' <= c <= '\r' || '\U{1c}' <= c <= '\U{1e}'
    || c == '\U{85}' || c == '\U{2028}' || c == '\U{2029}'
  }

  function LineEnd(text: string): (n: nat)
    ensures n <= |text| && forall i :: 0 <= i < n ==> !IsLineBreak(text[i])
    ensures n < |text| ==> IsLineBreak(text[n])
  {
    if text == [] || IsLineBreak(text[0]) then 0 else 1 + LineEnd(text[1..])
  }

  function SplitLines(text: string): seq<string>
    decreases |text|
  {
    if text == [] then []
    else
      var n := LineEnd(text);
      if n == |text| then [text]
      else
        var next := if text[n] == '\r' && n + 1 < |text| && text[n + 1] == '\n' then n + 2 else n + 1;
        [text[..n]] + SplitLines(text[next..])
  }

  /** `"\n".join(lines)`. */
  function Joined(lines: seq<string>): string {
    if lines == [] then ""
    else if |lines| == 1 then lines[0]
    else Joined(lines[..|lines| - 1]) + "\n" + lines[|lines| - 1]
  }

  // ---- quotes ----

  function QuoteState(line: string, inQuotes: bool): bool {
    if line == [] then inQuotes
    else if line[0] != '"' then QuoteState(line[1..], inQuotes)
    else if |line| > 1 && line[1] == '"' then QuoteState(line[2..], inQuotes)
    else QuoteState(line[1..], !inQuotes)
  }

  // ---- one record ----

  /** Where the CSV reader stands. */
  datatype ReaderState = StartRecord | StartField | InField | InQuoted | QuoteInQuoted

  /** The first record of `text`, read character by character in the default dialect. */
  function ReadRecord(text: string, state: ReaderState, field: string, cells: seq<string>): seq<string>
    decreases |text|
  {
    if text == [] then
      if state == StartRecord then cells else cells + [field]
    else
      var (c, rest) := (text[0], text[1..]);
      match state
      case StartRecord =>
        if c == '\n' then cells
        else if c == '"' then ReadRecord(rest, InQuoted, field, cells)
        else if c == ',' then ReadRecord(rest, StartField, "", cells + [field])
        else ReadRecord(rest, InField, field + [c], cells)
      case StartField =>
        if c == '\n' then cells + [field]
        else if c == '"' then ReadRecord(rest, InQuoted, field, cells)
        else if c == ',' then ReadRecord(rest, StartField, "", cells + [field])
        else ReadRecord(rest, InField, field + [c], cells)
      case InField =>
        if c == '\n' then cells + [field]
        else if c == ',' then ReadRecord(rest, StartField, "", cells + [field])
        else ReadRecord(rest, InField, field + [c], cells)
      case InQuoted =>
        if c == '"' then ReadRecord(rest, QuoteInQuoted, field, cells)
        else ReadRecord(rest, InQuoted, field + [c], cells)
      case QuoteInQuoted =>
        if c == '"' then ReadRecord(rest, InQuoted, field + [c], cells)
        else if c == ',' then ReadRecord(rest, StartField, "", cells + [field])
        else if c == '\n' then cells + [field]
        else ReadRecord(rest, InField, field + [c], cells)
  }

  function ParseRecord(text: string): seq<string> {
    ReadRecord(text, StartRecord, "", [])
  }

  // ---- annotated rows ----

  datatype SheetRow = SheetRow(number: nat, cells: seq<string>)

  const ROW_MARK := "[row="

  /** The row number a line starts with, and what follows the mark. */
  function RowPrefix(line: string): Option<(nat, string)> {
    if !(ROW_MARK <= line) then None
    else
      var rest := line[|ROW_MARK|..];
      var n := DigitsAt(rest);
      if n == 0 || n == |rest| || rest[n] != ']' then None
      else Some((Number(rest[..n]), rest[n + 1..]))
  }

  /** The space after the mark does not belong to the record. */
  function RecordStart(rest: string): string {
    if rest != [] && rest[0] == ' ' then rest[1..] else rest
  }

  /** Between rows, or collecting the lines of one. */
  datatype Reading = Idle | Collecting(row: nat, lines: seq<string>, inQuotes: bool)

  function Flush(reading: Reading): seq<SheetRow> {
    match reading
    case Idle => []
    case Collecting(row, lines, _) => [SheetRow(row, ParseRecord(Joined(lines)))]
  }

  predicate InsideQuotes(reading: Reading) {
    reading.Collecting? && reading.inQuotes
  }

  /** What one line adds to the rows, and where it leaves the reading. */
  function ReadLine(reading: Reading, line: string): (seq<SheetRow>, Reading) {
    var mark := RowPrefix(line);
    if mark.Some? && !InsideQuotes(reading) then
      var record := RecordStart(mark.value.1);
      (Flush(reading), Collecting(mark.value.0, [record], QuoteState(record, false)))
    else if reading.Idle? then ([], Idle)
    else
      var more := Collecting(reading.row, reading.lines + [line], QuoteState(line, reading.inQuotes));
      if more.inQuotes then ([], more) else (Flush(more), Idle)
  }

  function ReadLines(lines: seq<string>, reading: Reading): seq<SheetRow>
    decreases |lines|
  {
    if lines == [] then Flush(reading)
    else
      var (rows, next) := ReadLine(reading, lines[0]);
      rows + ReadLines(lines[1..], next)
  }

  function ParseRows(text: string): seq<SheetRow> {
    ReadLines(SplitLines(text), Idle)
  }

  // ---- the parser ----

  method FoldQuotes(line: string, start: bool) returns (inQuotes: bool)
    ensures inQuotes == QuoteState(line, start)
  {
    inQuotes := start;
    var index := 0;
    while index < |line|
      invariant 0 <= index <= |line|
      invariant QuoteState(line, start) == QuoteState(line[index..], inQuotes)
    {
      assert line[index..][1..] == line[index + 1..];
      if line[index] == '"' {
        if index + 1 < |line| && line[index + 1] == '"' {
          assert line[index..][2..] == line[index + 2..];
          index := index + 2;
          continue;
        }
        inQuotes := !inQuotes;
      }
      index := index + 1;
    }
  }

  method ParseAnnotatedRows(text: string) returns (rows: seq<SheetRow>)
    ensures rows == ParseRows(text)
  {
    hide SplitLines, ReadLine, Flush;
    rows := [];
    var row: Option<nat>, lines: seq<string>, inQuotes := None, [], false;
    var texts := SplitLines(text);
    for i := 0 to |texts|
      invariant row.None? ==> !inQuotes
      invariant ParseRows(text) == rows + ReadLines(texts[i..], ReadingOf(row, lines, inQuotes))
    {
      assert texts[i..][0] == texts[i] && texts[i..][1..] == texts[i + 1..];
      ghost var before := rows;
      var flushed;
      flushed, row, lines, inQuotes := TakeLine(texts[i], row, lines, inQuotes);
      rows := rows + flushed;
      assert before + (flushed + ReadLines(texts[i + 1..], ReadingOf(row, lines, inQuotes)))
        == rows + ReadLines(texts[i + 1..], ReadingOf(row, lines, inQuotes));
    }
    var flushed := FlushRow(row, lines, inQuotes);
    rows := rows + flushed;
  }

  /** One pass of the loop: a mark outside quotes starts a row, any other line continues the row being read. */
  method TakeLine(line: string, row: Option<nat>, lines: seq<string>, inQuotes: bool)
    returns (flushed: seq<SheetRow>, nextRow: Option<nat>, nextLines: seq<string>, nextInQuotes: bool)
    requires row.None? ==> !inQuotes
    ensures (flushed, ReadingOf(nextRow, nextLines, nextInQuotes)) == ReadLine(ReadingOf(row, lines, inQuotes), line)
    ensures nextRow.None? ==> !nextInQuotes
  {
    hide Flush, QuoteState, RowPrefix, RecordStart;
    var mark := RowPrefix(line);
    flushed, nextRow, nextLines, nextInQuotes := [], row, lines, inQuotes;
    if mark.Some? && !inQuotes {
      flushed := FlushRow(row, lines, inQuotes);
      nextRow := Some(mark.value.0);
      nextLines := [RecordStart(mark.value.1)];
      nextInQuotes := FoldQuotes(nextLines[0], false);
    } else if row.Some? {
      nextLines := lines + [line];
      nextInQuotes := FoldQuotes(line, inQuotes);
      if !nextInQuotes {
        flushed := FlushRow(row, nextLines, nextInQuotes);
        nextRow, nextLines := None, [];
      }
    }
  }

  method FlushRow(row: Option<nat>, lines: seq<string>, inQuotes: bool) returns (flushed: seq<SheetRow>)
    ensures flushed == Flush(ReadingOf(row, lines, inQuotes))
  {
    flushed := if row.Some? then [SheetRow(row.value, ParseRecord(Joined(lines)))] else [];
  }

  function ReadingOf(row: Option<nat>, lines: seq<string>, inQuotes: bool): Reading {
    match row case None => Idle case Some(n) => Collecting(n, lines, inQuotes)
  }
}
