/** Reading back printed sheets: which texts survive, and exactly which do not. */
module SheetTextProofs {
  import opened Basics
  import opened Text
  import opened SheetText

  // ---- printing ----

  /** A cell and whether its writer put it in quotes. */
  datatype PrintedCell = PrintedCell(text: string, quoted: bool)

  datatype PrintedRow = PrintedRow(number: nat, cells: seq<PrintedCell>, ending: string)

  predicate NeedsQuotes(text: string) {
    ',' in text || '"' in text || '\n' in text || '\r' in text
  }

  /** Every quote doubled. */
  function Doubled(text: string): string {
    if text == [] then "" else (if text[0] == '"' then "\"\"" else [text[0]]) + Doubled(text[1..])
  }

  function PrintCell(cell: PrintedCell): string {
    if cell.quoted then "\"" + Doubled(cell.text) + "\"" else cell.text
  }

  function PrintRecord(cells: seq<PrintedCell>): string {
    if cells == [] then ""
    else if |cells| == 1 then PrintCell(cells[0])
    else PrintCell(cells[0]) + "," + PrintRecord(cells[1..])
  }

  function RowMark(number: nat): string {
    ROW_MARK + Decimal(number) + "] "
  }

  function PrintRow(row: PrintedRow): string {
    RowMark(row.number) + PrintRecord(row.cells) + row.ending
  }

  function PrintRows(rows: seq<PrintedRow>): string {
    if rows == [] then "" else PrintRow(rows[0]) + PrintRows(rows[1..])
  }

  /** Section 2 of RFC 4180: quotes are optional except where a cell needs them; a lone empty cell needs them too. */
  predicate Legal(cells: seq<PrintedCell>) {
    && (forall i :: 0 <= i < |cells| ==> cells[i].quoted || !NeedsQuotes(cells[i].text))
    && cells != [PrintedCell("", false)]
  }

  /** Rows end in a line feed, alone or after a carriage return; the last one may end with the text. */
  predicate LegalRows(rows: seq<PrintedRow>) {
    forall i :: 0 <= i < |rows| ==>
      Legal(rows[i].cells) && (rows[i].ending in {"\n", "\r\n"} || (rows[i].ending == "" && i == |rows| - 1))
  }

  function Texts(cells: seq<PrintedCell>): seq<string> {
    seq(|cells|, i requires 0 <= i < |cells| => cells[i].text)
  }

  function Values(rows: seq<PrintedRow>): seq<SheetRow> {
    seq(|rows|, i requires 0 <= i < |rows| => SheetRow(rows[i].number, Texts(rows[i].cells)))
  }

  // ---- one record ----

  lemma {:induction false} RawCellReads(text: string, rest: string, state: ReaderState, field: string,
      cells: seq<string>)
    requires !NeedsQuotes(text) && state in {StartField, InField}
    requires rest == [] || rest[0] == ','
    ensures ReadRecord(text + rest, state, field, cells) ==
      if rest == [] then cells + [field + text] else ReadRecord(rest[1..], StartField, "", cells + [field + text])
    decreases |text|
  {
    if text == [] {
      assert text + rest == rest && field + text == field;
    } else {
      assert text[0] in text && forall c :: c in text[1..] ==> c in text;
      assert (text + rest)[1..] == text[1..] + rest;
      assert field + [text[0]] + text[1..] == field + text;
      RawCellReads(text[1..], rest, InField, field + [text[0]], cells);
    }
  }

  lemma {:induction false} QuotedCellReads(text: string, rest: string, field: string, cells: seq<string>)
    requires rest == [] || rest[0] == ','
    ensures ReadRecord(Doubled(text) + "\"" + rest, InQuoted, field, cells) ==
      if rest == [] then cells + [field + text] else ReadRecord(rest[1..], StartField, "", cells + [field + text])
    decreases |text|
  {
    var tail := Doubled(text) + "\"" + rest;
    if text == [] {
      assert tail == "\"" + rest && tail[1..] == rest && field + text == field;
    } else {
      var (c, more) := (text[0], Doubled(text[1..]) + "\"" + rest);
      assert field + [c] + text[1..] == field + text;
      QuotedCellReads(text[1..], rest, field + [c], cells);
      if c == '"' {
        assert tail == "\"\"" + more && tail[1..] == "\"" + more && tail[1..][1..] == more;
      } else {
        assert tail == [c] + more && tail[1..] == more;
      }
    }
  }

  lemma CellReads(cell: PrintedCell, rest: string, cells: seq<string>)
    requires cell.quoted || !NeedsQuotes(cell.text)
    requires rest == [] || rest[0] == ','
    ensures ReadRecord(PrintCell(cell) + rest, StartField, "", cells) ==
      if rest == [] then cells + [cell.text] else ReadRecord(rest[1..], StartField, "", cells + [cell.text])
  {
    assert "" + cell.text == cell.text;
    if cell.quoted {
      QuotedCellReads(cell.text, rest, "", cells);
      assert PrintCell(cell) + rest == "\"" + (Doubled(cell.text) + "\"" + rest);
      assert (PrintCell(cell) + rest)[1..] == Doubled(cell.text) + "\"" + rest;
    } else {
      RawCellReads(cell.text, rest, StartField, "", cells);
    }
  }

  lemma {:induction false} CellsRead(cells: seq<PrintedCell>, read: seq<string>)
    requires cells != [] && forall i :: 0 <= i < |cells| ==> cells[i].quoted || !NeedsQuotes(cells[i].text)
    ensures ReadRecord(PrintRecord(cells), StartField, "", read) == read + Texts(cells)
    decreases |cells|
  {
    hide NeedsQuotes, PrintCell, ReadRecord;
    if |cells| == 1 {
      assert PrintCell(cells[0]) + [] == PrintCell(cells[0]);
      CellReads(cells[0], [], read);
      assert Texts(cells) == [cells[0].text];
    } else {
      var rest := "," + PrintRecord(cells[1..]);
      assert PrintRecord(cells) == PrintCell(cells[0]) + rest && rest[1..] == PrintRecord(cells[1..]);
      CellReads(cells[0], rest, read);
      CellsRead(cells[1..], read + [cells[0].text]);
      assert read + [cells[0].text] + Texts(cells[1..]) == read + Texts(cells);
    }
  }

  /** Reading a record gives back the cells it was printed from. */
  lemma RecordReads(cells: seq<PrintedCell>)
    requires Legal(cells)
    ensures ParseRecord(PrintRecord(cells)) == Texts(cells)
  {
    if cells != [] {
      CellsRead(cells, []);
      var text := PrintRecord(cells);
      FirstCharacter(cells);
      assert ReadRecord(text, StartRecord, "", []) == ReadRecord(text, StartField, "", []);
      assert [] + Texts(cells) == Texts(cells);
    }
  }

  lemma FirstCharacter(cells: seq<PrintedCell>)
    requires Legal(cells) && cells != []
    ensures PrintRecord(cells) != [] && PrintRecord(cells)[0] != '\n'
  {
    if !cells[0].quoted && cells[0].text != [] {
      assert cells[0].text[0] in cells[0].text;
    }
  }

  // ---- quotes ----

  function Quotes(text: string): nat {
    if text == [] then 0 else (if text[0] == '"' then 1 else 0) + Quotes(text[1..])
  }

  predicate Odd(n: nat) {
    n % 2 == 1
  }

  /** The quote state machine counts parity: a doubled quote switches nothing, a single one switches. */
  lemma {:induction false} QuoteStateIsParity(line: string, inQuotes: bool)
    ensures QuoteState(line, inQuotes) == (inQuotes != Odd(Quotes(line)))
    decreases |line|
  {
    if line != [] {
      QuoteStateIsParity(line[1..], inQuotes);
      QuoteStateIsParity(line[1..], !inQuotes);
      if line[0] == '"' && |line| > 1 && line[1] == '"' {
        QuoteStateIsParity(line[2..], inQuotes);
        assert line[1..][1..] == line[2..];
      }
    }
  }

  lemma {:induction false} QuotesAdd(x: string, y: string)
    ensures Quotes(x + y) == Quotes(x) + Quotes(y)
  {
    if x == [] {
      assert x + y == y;
    } else {
      QuotesAdd(x[1..], y);
      assert (x + y)[1..] == x[1..] + y;
    }
  }

  /** Every line feed stands inside quotes, when the text starts inside them or not. */
  predicate FeedsQuoted(text: string, inQuotes: bool) {
    text == [] || ((text[0] == '\n' ==> inQuotes)
        && FeedsQuoted(text[1..], if text[0] == '"' then !inQuotes else inQuotes))
  }

  lemma {:induction false} FeedsQuotedAdd(x: string, y: string, inQuotes: bool)
    ensures FeedsQuoted(x + y, inQuotes) <==> FeedsQuoted(x, inQuotes) && FeedsQuoted(y, inQuotes != Odd(Quotes(x)))
  {
    if x == [] {
      assert x + y == y;
    } else {
      FeedsQuotedAdd(x[1..], y, if x[0] == '"' then !inQuotes else inQuotes);
      assert (x + y)[1..] == x[1..] + y;
    }
  }

  lemma {:induction false} DoubledFeedsAreQuoted(text: string)
    ensures FeedsQuoted(Doubled(text), true) && !Odd(Quotes(Doubled(text)))
  {
    if text != [] {
      var first := if text[0] == '"' then "\"\"" else [text[0]];
      DoubledFeedsAreQuoted(text[1..]);
      FeedsQuotedAdd(first, Doubled(text[1..]), true);
      QuotesAdd(first, Doubled(text[1..]));
      assert first[1..] == if text[0] == '"' then "\"" else "";
      assert "\""[1..] == "";
    }
  }

  lemma {:induction false} PlainTextHasNoQuotes(text: string)
    requires !NeedsQuotes(text)
    ensures FeedsQuoted(text, false) && Quotes(text) == 0
  {
    if text != [] {
      assert text[0] in text && forall c :: c in text[1..] ==> c in text;
      PlainTextHasNoQuotes(text[1..]);
    }
  }

  lemma CellFeedsAreQuoted(cell: PrintedCell)
    requires cell.quoted || !NeedsQuotes(cell.text)
    ensures FeedsQuoted(PrintCell(cell), false) && !Odd(Quotes(PrintCell(cell)))
  {
    if cell.quoted {
      var inner := Doubled(cell.text);
      DoubledFeedsAreQuoted(cell.text);
      assert PrintCell(cell) == "\"" + (inner + "\"");
      FeedsQuotedAdd("\"", inner + "\"", false);
      FeedsQuotedAdd(inner, "\"", true);
      QuotesAdd("\"", inner + "\"");
      QuotesAdd(inner, "\"");
      assert "\""[1..] == "";
    } else {
      PlainTextHasNoQuotes(cell.text);
    }
  }

  /** In a printed record every line feed is inside quotes, and the quotes are balanced. */
  lemma {:induction false} RecordFeedsAreQuoted(cells: seq<PrintedCell>)
    requires forall i :: 0 <= i < |cells| ==> cells[i].quoted || !NeedsQuotes(cells[i].text)
    ensures FeedsQuoted(PrintRecord(cells), false) && !Odd(Quotes(PrintRecord(cells)))
  {
    hide NeedsQuotes, PrintCell;
    if cells != [] {
      CellFeedsAreQuoted(cells[0]);
      if |cells| > 1 {
        var (first, rest) := (PrintCell(cells[0]), PrintRecord(cells[1..]));
        RecordFeedsAreQuoted(cells[1..]);
        FeedsQuotedAdd(first + ",", rest, false);
        FeedsQuotedAdd(first, ",", false);
        QuotesAdd(first + ",", rest);
        QuotesAdd(first, ",");
        assert ","[1..] == "";
      }
    }
  }

  // ---- lines ----

  /** No character that would end a line. */
  predicate Unbroken(text: string) {
    forall i :: 0 <= i < |text| ==> !IsLineBreak(text[i])
  }

  /** No line break but the line feed. */
  predicate Clean(text: string) {
    forall i :: 0 <= i < |text| ==> IsLineBreak(text[i]) ==> text[i] == '\n'
  }

  lemma {:induction false} LineEndsThere(line: string, rest: string)
    requires Unbroken(line) && (rest == [] || IsLineBreak(rest[0]))
    ensures LineEnd(line + rest) == |line|
  {
    if line == [] {
      assert line + rest == rest;
    } else {
      LineEndsThere(line[1..], rest);
      assert (line + rest)[1..] == line[1..] + rest;
    }
  }

  lemma FirstLine(line: string, ending: string, rest: string)
    requires Unbroken(line) && ending in {"\n", "\r\n"}
    ensures SplitLines(line + ending + rest) == [line] + SplitLines(rest)
  {
    var text := line + ending + rest;
    assert text == line + (ending + rest);
    LineEndsThere(line, ending + rest);
    assert text[|line| + |ending|..] == rest;
  }

  lemma OnlyLine(line: string)
    requires Unbroken(line) && line != []
    ensures SplitLines(line) == [line]
  {
    assert line + [] == line;
    LineEndsThere(line, []);
  }

  /** The place of the first line feed, or the length. */
  function FeedAt(text: string): (n: nat)
    ensures n <= |text| && forall i :: 0 <= i < n ==> text[i] != '\n'
    ensures n < |text| ==> text[n] == '\n'
  {
    if text == [] || text[0] == '\n' then 0 else 1 + FeedAt(text[1..])
  }

  lemma FeedCuts(text: string, n: nat)
    requires n < |text| && text[n] == '\n'
    ensures text == text[..n] + "\n" + text[n + 1..]
  {
  }

  lemma CleanLines(text: string, n: nat)
    requires Clean(text) && n == FeedAt(text)
    ensures Unbroken(text[..n])
    ensures n < |text| ==> Clean(text[n + 1..])
  {
    hide IsLineBreak;
    if n < |text| {
      var rest := text[n + 1..];
      assert forall i :: 0 <= i < |rest| ==> rest[i] == text[n + 1 + i];
    }
  }

  lemma JoinedOneMore(lines: seq<string>, line: string)
    requires lines != []
    ensures Joined(lines + [line]) == Joined(lines) + "\n" + line
  {
    assert (lines + [line])[..|lines|] == lines;
  }

  /** Quotes before and after the line break of a text whose line feeds are quoted. */
  lemma FeedSplitsQuotes(text: string, n: nat, inQuotes: bool)
    requires FeedsQuoted(text, inQuotes) && n == FeedAt(text)
    ensures n < |text| ==> (inQuotes != Odd(Quotes(text[..n])))
    ensures n < |text| ==> FeedsQuoted(text[n + 1..], true) && Quotes(text) == Quotes(text[..n]) + Quotes(text[n + 1..])
  {
    if n < |text| {
      var (x, y) := (text[..n], text[n + 1..]);
      assert text == x + ("\n" + y) && ("\n" + y)[1..] == y;
      FeedsQuotedAdd(x, "\n" + y, inQuotes);
      QuotesAdd(x, "\n" + y);
    }
  }

  /** The rest of a record that a reading inside quotes takes in: all of it, whatever its lines look like. */
  lemma {:induction false} TakesTheRest(text: string, ending: string, more: string, row: nat, lines: seq<string>)
    requires Clean(text) && FeedsQuoted(text, true) && Odd(Quotes(text)) && lines != []
    requires ending in {"\n", "\r\n"} || (ending == "" && more == "")
    ensures ReadLines(SplitLines(text + ending + more), Collecting(row, lines, true))
      == [SheetRow(row, ParseRecord(Joined(lines) + "\n" + text))] + ReadLines(SplitLines(more), Idle)
    decreases |text|
  {
    hide SplitLines, QuoteState, ParseRecord, Joined, RowPrefix, Quotes, FeedsQuoted, Clean, Unbroken, ReadLines;
    var n := FeedAt(text);
    var line := text[..n];
    CleanLines(text, n);
    FeedSplitsQuotes(text, n, true);
    QuoteStateIsParity(line, true);
    JoinedOneMore(lines, line);
    if n < |text| {
      var rest := text[n + 1..];
      FeedCuts(text, n);
      assert text + ending + more == line + "\n" + (rest + ending + more);
      FirstLine(line, "\n", rest + ending + more);
      TakesTheRest(rest, ending, more, row, lines + [line]);
      assert Joined(lines) + "\n" + line + "\n" + rest == Joined(lines) + "\n" + text;
      OneLineRead(line, rest + ending + more, Collecting(row, lines, true));
    } else {
      assert line == text;
      TakesTheLastLine(text, ending, more, row, lines);
    }
  }

  lemma TakesTheLastLine(text: string, ending: string, more: string, row: nat, lines: seq<string>)
    requires Unbroken(text) && Odd(Quotes(text)) && lines != []
    requires ending in {"\n", "\r\n"} || (ending == "" && more == "")
    ensures ReadLines(SplitLines(text + ending + more), Collecting(row, lines, true))
      == [SheetRow(row, ParseRecord(Joined(lines) + "\n" + text))] + ReadLines(SplitLines(more), Idle)
  {
    hide SplitLines, QuoteState, ParseRecord, Joined, RowPrefix, Quotes, Unbroken, ReadLines;
    QuoteStateIsParity(text, true);
    JoinedOneMore(lines, text);
    if ending == "" {
      assert text + ending + more == text;
      QuotedIsNotEmpty(text);
      OnlyLine(text);
      NothingToRead(more);
    } else {
      FirstLine(text, ending, more);
    }
    LastLineRead(text, SplitLines(text + ending + more), SplitLines(more), Collecting(row, lines, true));
  }

  lemma QuotedIsNotEmpty(text: string)
    requires Odd(Quotes(text))
    ensures text != []
  {
  }

  lemma NothingToRead(more: string)
    ensures more == "" ==> SplitLines(more) == []
  {
  }

  lemma OneLineRead(line: string, rest: string, reading: Reading)
    requires reading.Collecting? && reading.inQuotes && QuoteState(line, true)
    requires SplitLines(line + "\n" + rest) == [line] + SplitLines(rest)
    ensures ReadLines(SplitLines(line + "\n" + rest), reading)
      == ReadLines(SplitLines(rest), Collecting(reading.row, reading.lines + [line], true))
  {
    hide SplitLines, QuoteState, RowPrefix;
    var lines := SplitLines(line + "\n" + rest);
    assert lines[0] == line && lines[1..] == SplitLines(rest);
    var later := ReadLines(lines[1..], Collecting(reading.row, reading.lines + [line], true));
    assert [] + later == later;
  }

  lemma LastLineRead(line: string, lines: seq<string>, rest: seq<string>, reading: Reading)
    requires reading.Collecting? && reading.inQuotes && !QuoteState(line, true) && lines == [line] + rest
    ensures ReadLines(lines, reading)
      == [SheetRow(reading.row, ParseRecord(Joined(reading.lines + [line])))] + ReadLines(rest, Idle)
  {
    hide QuoteState, RowPrefix, ParseRecord, Joined;
    assert lines[0] == line && lines[1..] == rest;
  }

  // ---- one row ----

  lemma MarkReads(number: nat, line: string)
    ensures RowPrefix(RowMark(number) + line) == Some((number, " " + line))
    ensures RecordStart(" " + line) == line
    ensures Unbroken(RowMark(number))
  {
    var digits := Decimal(number);
    DecimalReadsBack(number);
    var text := RowMark(number) + line;
    var rest := digits + ("] " + line);
    assert text == ROW_MARK + rest && text[|ROW_MARK|..] == rest;
    DigitsEndThere(digits, "] " + line);
    assert rest[..|digits|] == digits && rest[|digits| + 1..] == " " + line;
    assert (" " + line)[1..] == line;
  }

  /** Text that may follow a row: nothing, or the mark of the next one. */
  ghost predicate StartsRow(more: string) {
    more == "" || (SplitLines(more) != [] && RowPrefix(SplitLines(more)[0]).Some?)
  }

  /** A complete row that is still open is closed by the end or by the next mark. */
  lemma NextMarkCloses(row: nat, lines: seq<string>, more: string)
    requires StartsRow(more)
    ensures ReadLines(SplitLines(more), Collecting(row, lines, false))
      == [SheetRow(row, ParseRecord(Joined(lines)))] + ReadLines(SplitLines(more), Idle)
  {
    hide RowPrefix, ParseRecord, Joined, QuoteState;
    var rest := SplitLines(more);
    if more == "" {
      NothingToRead(more);
    } else {
      var later := ReadLines(rest[1..], ReadLine(Idle, rest[0]).1);
      assert [] + later == later;
    }
  }

  lemma UnbrokenJoin(x: string, y: string)
    requires Unbroken(x) && Unbroken(y)
    ensures Unbroken(x + y)
  {
  }

  /** The first line of a printed row opens it. */
  lemma MarkedLineOpens(number: nat, line: string, rest: seq<string>)
    ensures ReadLines([RowMark(number) + line] + rest, Idle)
        == ReadLines(rest, Collecting(number, [line], Odd(Quotes(line))))
  {
    hide RowPrefix, RecordStart, RowMark, Quotes;
    MarkReads(number, line);
    QuoteStateIsParity(line, false);
    var lines := [RowMark(number) + line] + rest;
    assert lines[0] == RowMark(number) + line && lines[1..] == rest;
    var next := Collecting(number, [line], Odd(Quotes(line)));
    assert ReadLine(Idle, lines[0]) == ([], next);
    assert [] + ReadLines(rest, next) == ReadLines(rest, next);
  }

  /** The lines of a printed row and what follows: the marked line first. */
  lemma RowLines(number: nat, text: string, ending: string, more: string, n: nat)
    requires Clean(text) && n == FeedAt(text)
    requires ending in {"\n", "\r\n"} || (ending == "" && more == "")
    ensures SplitLines(RowMark(number) + text + ending + more) ==
      [RowMark(number) + text[..n]] + SplitLines(if n < |text| then text[n + 1..] + ending + more else more)
  {
    hide SplitLines, RowMark, Unbroken, Clean;
    var (mark, line) := (RowMark(number), text[..n]);
    CleanLines(text, n);
    MarkReads(number, line);
    UnbrokenJoin(mark, line);
    if n < |text| {
      FeedCuts(text, n);
      assert mark + text + ending + more == mark + line + "\n" + (text[n + 1..] + ending + more);
      FirstLine(mark + line, "\n", text[n + 1..] + ending + more);
    } else {
      assert line == text;
      if ending == "" {
        assert mark + text + ending + more == mark + text;
        MarkIsNotEmpty(number);
        OnlyLine(mark + text);
        NothingToRead(more);
        assert [mark + text] == [mark + text] + SplitLines(more);
      } else {
        FirstLine(mark + text, ending, more);
      }
    }
  }

  /** A printed row is read as its number and its record, whatever follows. */
  lemma RowReads(number: nat, text: string, ending: string, more: string)
    requires Clean(text) && FeedsQuoted(text, false) && !Odd(Quotes(text))
    requires ending in {"\n", "\r\n"} || (ending == "" && more == "")
    requires StartsRow(more)
    ensures ReadLines(SplitLines(RowMark(number) + text + ending + more), Idle)
      == [SheetRow(number, ParseRecord(text))] + ReadLines(SplitLines(more), Idle)
  {
    hide SplitLines, ReadLines, ParseRecord, RowMark, Quotes, FeedsQuoted, Unbroken, Clean, StartsRow;
    var n := FeedAt(text);
    var line := text[..n];
    RowLines(number, text, ending, more, n);
    CleanLines(text, n);
    FeedSplitsQuotes(text, n, false);
    assert Joined([line]) == line;
    if n < |text| {
      var rest := text[n + 1..];
      FeedCuts(text, n);
      MarkedLineOpens(number, line, SplitLines(rest + ending + more));
      TakesTheRest(rest, ending, more, number, [line]);
    } else {
      assert line == text;
      MarkedLineOpens(number, text, SplitLines(more));
      NextMarkCloses(number, [text], more);
    }
  }

  lemma MarkIsNotEmpty(number: nat)
    ensures RowMark(number) != []
  {
  }

  // ---- all rows ----

  predicate AllClean(cells: seq<PrintedCell>) {
    forall i :: 0 <= i < |cells| ==> Clean(cells[i].text)
  }

  lemma {:induction false} DoubledIsClean(text: string)
    requires Clean(text)
    ensures Clean(Doubled(text))
  {
    if text != [] {
      var rest := text[1..];
      assert forall i :: 0 <= i < |rest| ==> rest[i] == text[i + 1];
      DoubledIsClean(rest);
    }
  }

  lemma {:induction false} RecordIsClean(cells: seq<PrintedCell>)
    requires AllClean(cells)
    ensures Clean(PrintRecord(cells))
  {
    if cells != [] {
      DoubledIsClean(cells[0].text);
      RecordIsClean(cells[1..]);
    }
  }

  lemma PrintedStartsRow(rows: seq<PrintedRow>)
    requires LegalRows(rows) && forall i :: 0 <= i < |rows| ==> AllClean(rows[i].cells)
    ensures StartsRow(PrintRows(rows))
  {
    hide RowPrefix, RowMark, Quotes, SplitLines, Clean, Unbroken, Legal, PrintRecord, Decimal;
    if rows != [] {
      var row := rows[0];
      var text := PrintRecord(row.cells);
      RecordIsClean(row.cells);
      LastHasNoFollower(rows);
      RowLines(row.number, text, row.ending, PrintRows(rows[1..]), FeedAt(text));
      MarkReads(row.number, text[..FeedAt(text)]);
    }
  }

  lemma LastHasNoFollower(rows: seq<PrintedRow>)
    requires LegalRows(rows) && rows != []
    ensures rows[0].ending in {"\n", "\r\n"} || (rows[0].ending == "" && PrintRows(rows[1..]) == "")
    ensures PrintRows(rows)
        == RowMark(rows[0].number) + PrintRecord(rows[0].cells) + rows[0].ending + PrintRows(rows[1..])
  {
    hide Legal, PrintRecord, RowMark;
  }

  /** Printed rows with clean cells read back as they were. */
  lemma {:induction false} CleanRowsReadBack(rows: seq<PrintedRow>)
    requires LegalRows(rows) && forall i :: 0 <= i < |rows| ==> AllClean(rows[i].cells)
    ensures ParseRows(PrintRows(rows)) == Values(rows)
  {
    hide RowMark, Quotes, SplitLines, ReadLines, ParseRecord, Clean, PrintRecord, StartsRow, FeedsQuoted, NeedsQuotes;
    if rows == [] {
      NothingToRead("");
      NoLines();
    } else {
      var (row, rest) := (rows[0], rows[1..]);
      assert LegalRows(rest) by {
        assert forall i :: 0 <= i < |rest| ==> rest[i] == rows[i + 1];
      }
      CleanRowsReadBack(rest);
      PrintedStartsRow(rest);
      RecordIsClean(row.cells);
      RecordFeedsAreQuoted(row.cells);
      RecordReads(row.cells);
      LastHasNoFollower(rows);
      RowReads(row.number, PrintRecord(row.cells), row.ending, PrintRows(rest));
      assert Values(rows) == [SheetRow(row.number, Texts(row.cells))] + Values(rest);
    }
  }

  lemma NoLines()
    ensures ReadLines([], Idle) == []
  {
  }

  // ---- what cannot be read back ----

  lemma {:induction false} LinesAreUnbroken(text: string)
    ensures forall line :: line in SplitLines(text) ==> Unbroken(line)
    decreases |text|
  {
    if text != [] {
      var n := LineEnd(text);
      if n < |text| {
        var next := if text[n] == '\r' && n + 1 < |text| && text[n + 1] == '\n' then n + 2 else n + 1;
        LinesAreUnbroken(text[next..]);
      }
    }
  }

  lemma {:induction false} JoinedIsClean(lines: seq<string>)
    requires forall line :: line in lines ==> Unbroken(line)
    ensures Clean(Joined(lines))
  {
    if lines != [] {
      assert lines[0] in lines;
    }
    if |lines| > 1 {
      JoinedIsClean(lines[..|lines| - 1]);
      assert lines[|lines| - 1] in lines;
    }
  }

  predicate CleanTexts(cells: seq<string>) {
    forall i :: 0 <= i < |cells| ==> Clean(cells[i])
  }

  /** A reader makes cells only of characters it reads. */
  lemma {:induction false} ReadCellsAreClean(text: string, state: ReaderState, field: string, cells: seq<string>)
    requires Clean(text) && Clean(field) && CleanTexts(cells)
    ensures CleanTexts(ReadRecord(text, state, field, cells))
    decreases |text|
  {
    hide IsLineBreak;
    if text != [] {
      var (c, rest) := (text[0], text[1..]);
      CleanTail(text);
      CleanTail([c]);
      assert Clean(field + [c]) && Clean("") && CleanTexts(cells + [field]);
      ReadCellsAreClean(rest, InQuoted, field, cells);
      ReadCellsAreClean(rest, QuoteInQuoted, field, cells);
      ReadCellsAreClean(rest, InQuoted, field + [c], cells);
      ReadCellsAreClean(rest, InField, field + [c], cells);
      ReadCellsAreClean(rest, StartField, "", cells + [field]);
    }
  }

  lemma CleanTail(text: string)
    requires Clean(text)
    ensures text != [] ==> Clean(text[1..])
  {
    hide IsLineBreak;
    if text != [] {
      var rest := text[1..];
      assert forall i :: 0 <= i < |rest| ==> rest[i] == text[i + 1];
    }
  }

  lemma {:induction false} ReadRowsAreClean(lines: seq<string>, reading: Reading)
    requires forall line :: line in lines ==> Unbroken(line)
    requires reading.Collecting? ==> forall line :: line in reading.lines ==> Unbroken(line)
    ensures forall row :: row in ReadLines(lines, reading) ==> CleanTexts(row.cells)
    decreases |lines|
  {
    hide Unbroken, CleanTexts, ParseRecord, Joined, QuoteState, RowPrefix, RecordStart;
    FlushedIsClean(reading);
    if lines != [] {
      assert lines[0] in lines && forall line :: line in lines[1..] ==> line in lines;
      RecordStartIsUnbroken(lines[0]);
      if reading.Collecting? {
        FlushedIsClean(Collecting(reading.row, reading.lines + [lines[0]], false));
      }
      ReadRowsAreClean(lines[1..], ReadLine(reading, lines[0]).1);
    }
  }

  lemma FlushedIsClean(reading: Reading)
    requires reading.Collecting? ==> forall line :: line in reading.lines ==> Unbroken(line)
    ensures forall row :: row in Flush(reading) ==> CleanTexts(row.cells)
  {
    if reading.Collecting? {
      JoinedIsClean(reading.lines);
      ReadCellsAreClean(Joined(reading.lines), StartRecord, "", []);
    }
  }

  lemma RecordStartIsUnbroken(line: string)
    requires Unbroken(line)
    ensures RowPrefix(line).Some? ==> Unbroken(RecordStart(RowPrefix(line).value.1))
  {
    hide IsLineBreak;
    if RowPrefix(line).Some? {
      var rest := RowPrefix(line).value.1;
      var n := |line| - |rest|;
      assert rest == line[n..];
      var record := RecordStart(rest);
      assert forall i :: 0 <= i < |record| ==> record[i] == line[i + |line| - |record|];
    }
  }

  /**
   * Printing rows in any way RFC 4180 allows and reading them gives the rows back exactly when no cell holds a line
   * break other than the line feed: a carriage return, a form feed or a Unicode separator in a cell is lost.
   */
  lemma ReadsBackExactly(rows: seq<PrintedRow>)
    requires LegalRows(rows)
    ensures ParseRows(PrintRows(rows)) == Values(rows) <==> forall i :: 0 <= i < |rows| ==> AllClean(rows[i].cells)
  {
    hide Legal, Clean, PrintRow;
    if forall i :: 0 <= i < |rows| ==> AllClean(rows[i].cells) {
      CleanRowsReadBack(rows);
    }
    var text := PrintRows(rows);
    LinesAreUnbroken(text);
    ReadRowsAreClean(SplitLines(text), Idle);
    if ParseRows(text) == Values(rows) {
      forall i | 0 <= i < |rows| ensures AllClean(rows[i].cells) {
        assert Values(rows)[i] in ParseRows(text);
        assert CleanTexts(Texts(rows[i].cells));
        assert forall k :: 0 <= k < |rows[i].cells| ==> Texts(rows[i].cells)[k] == rows[i].cells[k].text;
      }
    }
  }
}
