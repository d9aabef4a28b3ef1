/** What the parser makes of records and marks nobody printed: stray quotes, text after quotes, a line feed outside. */
module SheetTextRecords {
  import opened Basics
  import opened Text
  import opened SheetText
  import opened SheetTextProofs

  /** A cell as it may stand in a record: perhaps a part in quotes, then plain text. */
  datatype LooseCell = LooseCell(quoted: Option<string>, tail: string)

  /** Plain text may hold quotes, but not where they would open or double one. */
  predicate Loose(cell: LooseCell) {
    && ',' !in cell.tail && '\n' !in cell.tail
    && (cell.tail != "" ==> cell.tail[0] != '"')
  }

  function Written(cell: LooseCell): string {
    (match cell.quoted case None => "" case Some(text) => "\"" + Doubled(text) + "\"") + cell.tail
  }

  function Meant(cell: LooseCell): string {
    (match cell.quoted case None => "" case Some(text) => text) + cell.tail
  }

  function WrittenRecord(cells: seq<LooseCell>): string {
    if cells == [] then ""
    else if |cells| == 1 then Written(cells[0])
    else Written(cells[0]) + "," + WrittenRecord(cells[1..])
  }

  function MeantRecord(cells: seq<LooseCell>): seq<string> {
    seq(|cells|, i requires 0 <= i < |cells| => Meant(cells[i]))
  }

  /** The end of a cell: the end of the text, a line feed, or a comma. */
  predicate EndsCell(rest: string) {
    rest == "" || rest[0] == '\n' || rest[0] == ','
  }

  /** What is read once a cell has ended. */
  function After(rest: string, cells: seq<string>): seq<string>
    requires EndsCell(rest)
  {
    if rest == "" || rest[0] == '\n' then cells else ReadRecord(rest[1..], StartField, "", cells)
  }

  lemma {:induction false} TailReads(tail: string, rest: string, state: ReaderState, field: string, cells: seq<string>)
    requires ',' !in tail && '\n' !in tail && EndsCell(rest)
    requires state in {StartField, InField, QuoteInQuoted}
    requires state != InField && tail != "" ==> tail[0] != '"'
    ensures ReadRecord(tail + rest, state, field, cells) == After(rest, cells + [field + tail])
    decreases |tail|
  {
    if tail == "" {
      assert tail + rest == rest && field + tail == field;
    } else {
      assert tail[0] in tail && forall c :: c in tail[1..] ==> c in tail;
      assert (tail + rest)[1..] == tail[1..] + rest;
      assert field + [tail[0]] + tail[1..] == field + tail;
      TailReads(tail[1..], rest, InField, field + [tail[0]], cells);
    }
  }

  lemma {:induction false} QuotedPartReads(text: string, tail: string, rest: string, field: string, cells: seq<string>)
    requires Loose(LooseCell(Some(text), tail)) && EndsCell(rest)
    ensures ReadRecord(Doubled(text) + "\"" + (tail + rest), InQuoted, field, cells)
      == After(rest, cells + [field + text + tail])
    decreases |text|
  {
    hide After;
    var all := Doubled(text) + "\"" + (tail + rest);
    if text == "" {
      assert all == "\"" + (tail + rest) && all[1..] == tail + rest && field + text == field;
      TailReads(tail, rest, QuoteInQuoted, field, cells);
    } else {
      var (c, more) := (text[0], Doubled(text[1..]) + "\"" + (tail + rest));
      assert field + [c] + text[1..] == field + text;
      QuotedPartReads(text[1..], tail, rest, field + [c], cells);
      if c == '"' {
        assert all == "\"\"" + more && all[1..] == "\"" + more && all[1..][1..] == more;
      } else {
        assert all == [c] + more && all[1..] == more;
      }
    }
  }

  lemma LooseCellReads(cell: LooseCell, rest: string, cells: seq<string>)
    requires Loose(cell) && EndsCell(rest)
    ensures ReadRecord(Written(cell) + rest, StartField, "", cells) == After(rest, cells + [Meant(cell)])
  {
    hide After;
    match cell.quoted
    case None =>
      assert "" + cell.tail == cell.tail;
      TailReads(cell.tail, rest, StartField, "", cells);
    case Some(text) =>
      assert Written(cell) + rest == "\"" + (Doubled(text) + "\"" + (cell.tail + rest));
      assert (Written(cell) + rest)[1..] == Doubled(text) + "\"" + (cell.tail + rest);
      assert "" + text + cell.tail == text + cell.tail;
      QuotedPartReads(text, cell.tail, rest, "", cells);
  }

  lemma {:induction false} LooseCellsRead(cells: seq<LooseCell>, rest: string, read: seq<string>)
    requires cells != [] && (forall i :: 0 <= i < |cells| ==> Loose(cells[i]))
    requires rest == "" || rest[0] == '\n'
    ensures ReadRecord(WrittenRecord(cells) + rest, StartField, "", read) == read + MeantRecord(cells)
    decreases |cells|
  {
    if |cells| == 1 {
      LooseCellReads(cells[0], rest, read);
      assert MeantRecord(cells) == [Meant(cells[0])];
    } else {
      var more := "," + (WrittenRecord(cells[1..]) + rest);
      assert WrittenRecord(cells) + rest == Written(cells[0]) + more && more[1..] == WrittenRecord(cells[1..]) + rest;
      LooseCellReads(cells[0], more, read);
      LooseCellsRead(cells[1..], rest, read + [Meant(cells[0])]);
      assert read + [Meant(cells[0])] + MeantRecord(cells[1..]) == read + MeantRecord(cells);
    }
  }

  /**
   * The first record of a text, however it is written: quotes inside plain text are kept, text after a quoted part
   * belongs to its cell, and a line feed outside quotes ends the record, whatever follows.
   */
  lemma LooseRecordReads(cells: seq<LooseCell>, rest: string)
    requires forall i :: 0 <= i < |cells| ==> Loose(cells[i])
    requires rest == "" || rest[0] == '\n'
    ensures ParseRecord(WrittenRecord(cells) + rest) == if WrittenRecord(cells) == "" then [] else MeantRecord(cells)
  {
    hide WrittenRecord, MeantRecord, ReadRecord, ParseRecord;
    var text := WrittenRecord(cells) + rest;
    if WrittenRecord(cells) == "" {
      assert text == rest;
      NothingIsRead(rest);
    } else {
      FirstIsNoFeed(cells);
      assert text[0] == WrittenRecord(cells)[0];
      StartsWithField(text);
      LooseCellsRead(cells, rest, []);
      assert [] + MeantRecord(cells) == MeantRecord(cells);
    }
  }

  lemma NothingIsRead(rest: string)
    requires rest == "" || rest[0] == '\n'
    ensures ParseRecord(rest) == []
  {
  }

  lemma StartsWithField(text: string)
    requires text != "" && text[0] != '\n'
    ensures ParseRecord(text) == ReadRecord(text, StartField, "", [])
  {
  }

  lemma FirstIsNoFeed(cells: seq<LooseCell>)
    requires forall i :: 0 <= i < |cells| ==> Loose(cells[i])
    requires WrittenRecord(cells) != ""
    ensures cells != [] && WrittenRecord(cells)[0] != '\n'
  {
    var first := cells[0];
    if first.quoted.None? && first.tail != "" {
      assert first.tail[0] in first.tail;
    }
  }

  // ---- marks ----

  /** The line is a mark with these digits, followed by the rest. */
  ghost predicate IsMark(line: string, digits: string, rest: string) {
    digits != "" && (forall i :: 0 <= i < |digits| ==> IsDigit(digits[i])) && line == "[row=" + (digits + ("]" + rest))
  }

  lemma PrefixIsMark(line: string)
    requires RowPrefix(line).Some?
    ensures exists digits :: IsMark(line, digits, RowPrefix(line).value.1) && Number(digits) == RowPrefix(line).value.0
  {
    hide Number;
    var tail := line[5..];
    var n := DigitsAt(tail);
    assert line == "[row=" + tail && tail == tail[..n] + ("]" + tail[n + 1..]);
    assert IsMark(line, tail[..n], tail[n + 1..]);
  }

  lemma MarkIsPrefix(line: string, digits: string, rest: string)
    requires IsMark(line, digits, rest)
    ensures RowPrefix(line) == Some((Number(digits), rest))
  {
    hide Number;
    var tail := digits + ("]" + rest);
    assert line[5..] == tail && ROW_MARK <= line;
    DigitsEndThere(digits, "]" + rest);
    assert tail[..|digits|] == digits && tail[|digits| + 1..] == rest;
  }

  /** A line opens a row exactly when it starts with a mark. */
  lemma MarkIsExact(line: string, number: nat, rest: string)
    ensures RowPrefix(line) == Some((number, rest)) <==>
      exists digits :: IsMark(line, digits, rest) && Number(digits) == number
  {
    hide RowPrefix, Number;
    if RowPrefix(line) == Some((number, rest)) {
      PrefixIsMark(line);
    }
    if digits :| IsMark(line, digits, rest) && Number(digits) == number {
      MarkIsPrefix(line, digits, rest);
    }
  }
}
