/** A text the sheet parser does not give back. */
module SheetTextLimits {
  import opened Basics
  import opened Text
  import opened SheetText
  import opened SheetTextProofs

  const BROKEN := "[row=1] \"a\rb\""
  const FIRST_HALF := "[row=1] \"a"
  const SECOND_HALF := "b\""

  /** A carriage return on its own ends a line. */
  lemma SplitsAtReturn(x: string, y: string)
    requires Unbroken(x) && Unbroken(y) && y != ""
    ensures SplitLines(x + ("\r" + y)) == [x, y]
  {
    hide LineEnd;
    var text := x + ("\r" + y);
    LineEndsThere(x, "\r" + y);
    assert text[..|x|] == x && text[|x| + 1..] == y && text[|x|] == '\r';
    assert y[0] != '\n';
    LineEndsThere(y, "");
    assert y + "" == y;
  }

  lemma BrokenLines()
    ensures SplitLines(BROKEN) == [FIRST_HALF, SECOND_HALF]
  {
    hide SplitLines;
    assert BROKEN == FIRST_HALF + ("\r" + SECOND_HALF);
    SplitsAtReturn(FIRST_HALF, SECOND_HALF);
  }

  lemma BrokenMark()
    ensures RowPrefix(FIRST_HALF) == Some((1, " \"a"))
    ensures RowPrefix(SECOND_HALF) == None
  {
    var rest := FIRST_HALF[|ROW_MARK|..];
    assert rest == "1] \"a";
    assert "1" + "] \"a" == rest;
    DigitsEndThere("1", "] \"a");
    assert rest[..1] == "1" && Number("1") == 1;
  }

  lemma BrokenRecord()
    ensures ParseRecord("\"a\nb\"") == ["a\nb"]
  {
    hide ParseRecord;
    assert Doubled("a\nb") == "a\nb" by {
      assert "b"[1..] == "" && "\nb"[1..] == "b" && "a\nb"[1..] == "\nb";
      assert Doubled("b") == "b" && Doubled("\nb") == "\nb";
    }
    assert PrintRecord([PrintedCell("a\nb", true)]) == "\"a\nb\"";
    RecordReads([PrintedCell("a\nb", true)]);
  }

  /** A carriage return in a quoted cell comes back as a line feed. */
  lemma CarriageReturnIsNotReadBack()
    ensures ParseRows(BROKEN) == [SheetRow(1, ["a\nb"])]
  {
    hide SplitLines, RowPrefix, ParseRecord;
    BrokenLines();
    BrokenMark();
    BrokenRecord();
    assert QuoteState("\"a", false) && !QuoteState(SECOND_HALF, true);
    assert Joined(["\"a", SECOND_HALF]) == "\"a\nb\"";
    assert ["\"a"] + [SECOND_HALF] == ["\"a", SECOND_HALF];
    var reading := Collecting(1, ["\"a"], true);
    assert ReadLine(Idle, FIRST_HALF) == ([], reading);
    assert ReadLine(reading, SECOND_HALF) == ([SheetRow(1, ["a\nb"])], Idle);
    assert [FIRST_HALF, SECOND_HALF][1..] == [SECOND_HALF];
  }
}
