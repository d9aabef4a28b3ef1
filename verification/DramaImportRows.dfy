/** Import rows cell by cell: which rows are taken, what each becomes, and what a confirmation writes and answers. */
module DramaImportRows {
  import opened Basics
  import opened Text
  import opened DramaImport
  import opened DramaImportRuns

  /** The text of a cell; rows may be short. */
  function CellAt(cells: Cells, i: nat): string {
    if i < |cells| then cells[i] else ""
  }

  lemma PaddedCells(cells: Cells, n: nat)
    ensures forall i :: 0 <= i < n ==> Padded(cells, n)[i] == CellAt(cells, i)
  {
  }

  // ---- dates ----

  /** The parts of a text that starts with a date. */
  datatype DateParts = DateParts(
    blanks: string, year: string, first: char, month: string, second: char, day: string, rest: string)

  predicate Digits(s: string) {
    forall i :: 0 <= i < |s| ==> IsDigit(s[i])
  }

  predicate AllBlank(s: string) {
    forall i :: 0 <= i < |s| ==> IsSpace(s[i])
  }

  /** White space, four digits, a dash or slash, one or two digits, a dash or slash, one or two digits, then white
      space or the end. */
  predicate IsDate(raw: string, day: Day, p: DateParts) {
    && raw == p.blanks + (p.year + ([p.first] + (p.month + ([p.second] + (p.day + p.rest)))))
    && AllBlank(p.blanks) && Digits(p.year) && Digits(p.month) && Digits(p.day)
    && |p.year| == 4 && 1 <= |p.month| <= 2 && 1 <= |p.day| <= 2
    && p.first in {'-', '/'} && p.second in {'-', '/'} && (p.rest == "" || IsSpace(p.rest[0]))
    && day == Day(Number(p.year), Number(p.month), Number(p.day))
  }

  lemma {:induction false} LeftStripOf(blanks: string, text: string)
    requires AllBlank(blanks) && text != "" && !IsSpace(text[0])
    ensures LeftStrip(blanks + text) == text
  {
    if blanks == "" {
      assert blanks + text == text;
    } else {
      assert (blanks + text)[1..] == blanks[1..] + text;
      LeftStripOf(blanks[1..], text);
    }
  }

  /** A run of digits, what follows it, and what follows that. */
  lemma FieldIsRead(digits: string, c: char, rest: string)
    requires Digits(digits) && !IsDigit(c)
    ensures var s := digits + ([c] + rest);
      && DigitsAt(s) == |digits| < |s| && s[..|digits|] == digits && s[|digits|] == c && s[|digits| + 1..] == rest
  {
    DigitsEndThere(digits, [c] + rest);
  }

  lemma LastFieldIsRead(digits: string, rest: string)
    requires Digits(digits) && (rest == "" || IsSpace(rest[0]))
    ensures var s := digits + rest;
      && DigitsAt(s) == |digits| && s[..|digits|] == digits && (|s| > |digits| ==> IsSpace(s[|digits|]))
  {
    hide IsSpace;
    DigitsAreVisible();
    DigitsEndThere(digits, rest);
  }

  lemma DateIsRead(raw: string, day: Day, p: DateParts)
    requires IsDate(raw, day, p)
    ensures DatePrefix(raw) == Some(day)
  {
    hide IsSpace, Number, DigitsAt, LeftStrip;
    var afterMonth := p.day + p.rest;
    var afterYear := p.month + ([p.second] + afterMonth);
    var s := p.year + ([p.first] + afterYear);
    DigitsAreVisible();
    LeftStripOf(p.blanks, s);
    FieldIsRead(p.year, p.first, afterYear);
    FieldIsRead(p.month, p.second, afterMonth);
    LastFieldIsRead(p.day, p.rest);
  }

  lemma DigitsAreVisible()
    ensures forall c :: IsDigit(c) ==> !IsSpace(c)
    ensures forall c :: IsSpace(c) ==> !IsDigit(c)
  {
  }

  lemma SplitAt(s: string, n: nat)
    requires n < |s|
    ensures s == s[..n] + ([s[n]] + s[n + 1..])
  {
    assert s[n..] == [s[n]] + s[n + 1..];
  }

  /** The digits a text starts with. */
  lemma DigitsBefore(s: string)
    ensures Digits(s[..DigitsAt(s)])
  {
    hide DigitsAt, IsDigit;
  }

  /** The date's parts, from where each field ends. */
  lemma PartsFit(raw: string, a: nat, s: string, afterYear: string, m: nat, afterMonth: string, d: nat)
    requires a <= |raw| && s == raw[a..] && |s| > 4 && afterYear == s[5..] && m < |afterYear|
    requires afterMonth == afterYear[m + 1..] && d <= |afterMonth|
    ensures raw == raw[..a]
      + (s[..4] + ([s[4]] + (afterYear[..m] + ([afterYear[m]] + (afterMonth[..d] + afterMonth[d..])))))
  {
    SplitAt(s, 4);
    SplitAt(afterYear, m);
    assert afterMonth == afterMonth[..d] + afterMonth[d..];
    assert raw == raw[..a] + s;
  }

  lemma DateHasParts(raw: string, day: Day) returns (p: DateParts)
    requires DatePrefix(raw) == Some(day)
    ensures IsDate(raw, day, p)
  {
    hide IsSpace, Number, DigitsAt, LeftStrip, IsDigit, Digits;
    var a := LeftBlank(raw);
    var s := raw[a..];
    var afterYear := s[5..];
    var m := DigitsAt(afterYear);
    var afterMonth := afterYear[m + 1..];
    var d := DigitsAt(afterMonth);
    DigitsBefore(s);
    DigitsBefore(afterYear);
    DigitsBefore(afterMonth);
    PartsFit(raw, a, s, afterYear, m, afterMonth, d);
    p := DateParts(raw[..a], s[..4], s[4], afterYear[..m], afterYear[m], afterMonth[..d], afterMonth[d..]);
  }

  /** A text counts for a day exactly when it starts with that date. */
  lemma BusinessDayIsADate(raw: string, day: Day)
    ensures IsBusinessDay(raw, day) <==> exists p :: IsDate(raw, day, p)
  {
    hide IsDate, DatePrefix;
    if IsBusinessDay(raw, day) {
      var p := DateHasParts(raw, day);
    }
    if p :| IsDate(raw, day, p) {
      DateIsRead(raw, day, p);
    }
  }

  // ---- the rows taken ----

  /** The row is of the day, and its group names the operator or, if asked for, starts with the operator's letter. */
  ghost predicate Taken(row: PublicRow, day: Day, operator: Operator, matchGroup: bool) {
    var group := Strip(CellAt(row.cells, 2));
    && (exists p :: IsDate(CellAt(row.cells, 4), day, p))
    && (Contains(group, operator.name) || (matchGroup && operator.groupPrefix <= group))
  }

  lemma BlankStrips()
    ensures Strip("") == ""
  {
  }

  /** The sources are exactly the rows taken, in order. */
  lemma {:induction false} SourcesAreTaken(x: seq<PublicRow>, y: seq<PublicRow>, row: PublicRow, day: Day,
                                           operator: Operator, matchGroup: bool)
    ensures Sources(x + y, day, operator, matchGroup)
      == Sources(x, day, operator, matchGroup) + Sources(y, day, operator, matchGroup)
    ensures Sources([row], day, operator, matchGroup) == if Taken(row, day, operator, matchGroup) then [row] else []
  {
    hide IsSource, IsDate;
    if x == [] {
      assert x + y == y;
      SourceIsTaken(row, day, operator, matchGroup);
      assert [row][1..] == [];
    } else {
      assert (x + y)[0] == x[0] && (x + y)[1..] == x[1..] + y;
      SourcesAreTaken(x[1..], y, row, day, operator, matchGroup);
    }
  }

  lemma SourceIsTaken(row: PublicRow, day: Day, operator: Operator, matchGroup: bool)
    ensures IsSource(row, day, operator, matchGroup) <==> Taken(row, day, operator, matchGroup)
  {
    hide IsDate, DatePrefix, Contains;
    BusinessDayIsADate(CellAt(row.cells, 4), day);
    BlankStrips();
  }

  // ---- what a row becomes ----

  /** The private cells of a public row, column by column. */
  predicate Becomes(cells: Cells, private: Cells, completionColumn: nat) {
    && |private| == 14
    && private[0] == CellAt(cells, 0) && private[1] == CellAt(cells, 1) && private[2] == CellAt(cells, 2)
    && private[3] == CellAt(cells, 3) && private[4] == CellAt(cells, 4) && private[5] == Strip(CellAt(cells, 5))
    && private[6] == CellAt(cells, 9) && private[7] == CellAt(cells, 10) && private[8] == CellAt(cells, 11)
    && private[9] == CellAt(cells, 12) && private[10] == CellAt(cells, 13) && private[11] == CellAt(cells, 14)
    && private[12] == CellAt(cells, completionColumn) && private[13] == CellAt(cells, 27)
  }

  /** A row lacks its name, then its time, then its platform; one that lacks nothing is mapped cell by cell. */
  lemma RowsAreMapped(how: Conventions, row: PublicRow, completionColumn: nat)
    requires completionColumn < 28
    ensures var (name, time, platform) := (CellAt(row.cells, 5), CellAt(row.cells, 4), CellAt(row.cells, 10));
      && RowProblemOf(row) == (if Strip(name) == "" then Some(NoName) else if Strip(time) == "" then Some(NoTime)
                               else if Strip(platform) == "" then Some(NoPlatform) else None)
      && match MapPublicRow(how, row, completionColumn)
         case Err(error) => RowProblemOf(row).Some? && error == Invalid
         case Ok(mapped) =>
           && RowProblemOf(row).None? && mapped.sourceRow == row.rowNumber
           && Becomes(row.cells, mapped.cells, completionColumn)
           && mapped.key == Key(how.name(Strip(name)), how.platform(platform), Strip(time))
  {
    hide Strip;
    PaddedCells(row.cells, 28);
  }

  /** The identity of a row of the private sheet. */
  lemma PrivateRowsHaveIdentities(how: Conventions, cells: Cells)
    ensures var (name, time, platform) := (CellAt(cells, 5), CellAt(cells, 4), CellAt(cells, 7));
      PrivateIdentity(how, cells) ==
        if Strip(name) == "" || Strip(time) == "" || Strip(platform) == "" then None
        else Some(Key(how.name(name), how.platform(platform), Strip(time)))
  {
    hide Strip;
    PaddedCells(cells, 14);
  }

  // ---- the preview ----

  lemma {:induction false} NamedIsListed(operators: seq<Operator>, name: string)
    ensures match OperatorNamed(operators, name)
      case Some(operator) => operator in operators && operator.name == name
      case None => forall i :: 0 <= i < |operators| ==> operators[i].name != name
  {
    if operators != [] {
      NamedIsListed(operators[1..], name);
      assert operators == [operators[0]] + operators[1..];
    }
  }

  /** The import is for a listed operator, named with or without white space around. */
  lemma OperatorIsListed(name: string)
    ensures match ResolveOperator(name)
      case Some(operator) => operator in OPERATORS && operator.name == Strip(name)
      case None => forall operator :: operator in OPERATORS ==> operator.name != Strip(name)
  {
    hide Strip;
    NamedIsListed(OPERATORS, Strip(name));
  }

  /** `rows` come from `sources` in order, each the first of its identity and new to the sheet. */
  ghost predicate FirstOnes(how: Conventions, sources: seq<PublicRow>, existing: set<Key>, operator: Operator,
                            rows: seq<PrivateRow>)
    requires KnownOperator(operator)
  {
    && (forall k :: 0 <= k < |rows| ==> FromSource(how, sources, operator, rows[k]))
    && (forall n :: 0 <= n <= |sources| ==> Scan(how, sources[..n], existing, operator).0 <= rows)
  }

  ghost predicate FromSource(how: Conventions, sources: seq<PublicRow>, operator: Operator, row: PrivateRow)
    requires KnownOperator(operator)
  {
    exists i :: 0 <= i < |sources| && MapPublicRow(how, sources[i], operator.completionColumn) == Ok(row)
  }

  lemma {:induction false} ScanTakesFirstOnes(how: Conventions, sources: seq<PublicRow>, existing: set<Key>,
                                              operator: Operator)
    requires KnownOperator(operator)
    ensures FirstOnes(how, sources, existing, operator, Scan(how, sources, existing, operator).0)
    decreases |sources|
  {
    hide MapPublicRow, RowProblemOf;
    if sources != [] {
      var n := |sources| - 1;
      var front := sources[..n];
      ScanTakesFirstOnes(how, front, existing, operator);
      MapsWhenNothingLacks(how, sources[n], operator.completionColumn);
      var (earlier, rows) := (Scan(how, front, existing, operator).0, Scan(how, sources, existing, operator).0);
      forall k | 0 <= k < |rows| ensures FromSource(how, sources, operator, rows[k]) {
        if k < |earlier| {
          assert FromSource(how, front, operator, earlier[k]);
          var i :| 0 <= i < |front| && MapPublicRow(how, front[i], operator.completionColumn) == Ok(earlier[k]);
          assert sources[i] == front[i];
        }
      }
      forall k | 0 <= k <= |sources| ensures Scan(how, sources[..k], existing, operator).0 <= rows {
        if k <= n {
          assert sources[..k] == front[..k];
        } else {
          assert sources[..k] == sources;
        }
      }
    }
  }

  lemma MapsWhenNothingLacks(how: Conventions, row: PublicRow, completionColumn: nat)
    requires completionColumn < 28
    ensures RowProblemOf(row).None? <==> MapPublicRow(how, row, completionColumn).Ok?
  {
  }

  /** A preview for a listed operator: the day, the name, every taken row counted once, and the first ones kept. */
  lemma PreviewSays(how: Conventions, publicRows: seq<PublicRow>, privateRows: seq<Cells>, day: Day,
                    operatorName: string, matchGroup: bool)
    ensures match ResolveOperator(operatorName)
      case None => BuildPreview(how, publicRows, privateRows, day, operatorName, matchGroup) == Err(Invalid)
      case Some(operator) =>
        && KnownOperator(operator)
        && BuildPreview(how, publicRows, privateRows, day, operatorName, matchGroup).Ok?
        && var preview := BuildPreview(how, publicRows, privateRows, day, operatorName, matchGroup).value;
           var sources := Sources(publicRows, day, operator, matchGroup);
           && preview.day == day && preview.operatorName == Strip(operatorName)
           && preview.sourceCount == |sources| == |preview.rows| + |preview.errors| + preview.duplicateCount
           && FirstOnes(how, sources, Identities(how, privateRows), operator, preview.rows)
  {
    hide Strip, Scan, Sources, Identities, FirstOnes, ResolveOperator;
    OperatorIsListed(operatorName);
    ResolvedIsKnown(operatorName);
    if ResolveOperator(operatorName).Some? {
      var operator := ResolveOperator(operatorName).value;
      var sources := Sources(publicRows, day, operator, matchGroup);
      ScanIsComplete(how, sources, Identities(how, privateRows), operator);
      ScanTakesFirstOnes(how, sources, Identities(how, privateRows), operator);
    }
  }

  // ---- what a confirmation writes and answers ----

  /** The rows on top of the sheet are the imported ones, with the formula's answer in the last column. */
  ghost predicate WrittenOnTop(how: Conventions, rows: seq<PrivateRow>, before: seq<Cells>, after: seq<Cells>) {
    && |after| == |rows| + |before| && after[|rows|..] == before
    && forall i :: 0 <= i < |rows| ==>
      && |after[i]| == 14
      && (forall c :: 0 <= c < 13 ==> after[i][c] == rows[i].cells[c])
      && after[i][13] == if how.isNumber(Strip(rows[i].cells[12])) then "OK" else "有人未上"
  }

  /** The answer of a write: as many rows as were imported, from row 2 on. */
  predicate Verified(result: InsertResult, count: nat) {
    && result.insertedCount == count && result.verified && |result.insertedRows| == count
    && forall i :: 0 <= i < count ==> result.insertedRows[i] == i + 2
  }

  /** The sheet already has the rows on top, perhaps with more cells than the fourteen of an import. */
  ghost predicate OnTop(how: Conventions, rows: seq<PrivateRow>, sheet: seq<Cells>) {
    && |sheet| >= |rows|
    && forall i, c :: 0 <= i < |rows| && 0 <= c < 14 ==> CellAt(sheet[i], c) == Readback(how, rows[i])[c]
  }

  lemma TopRowsAreOnTop(how: Conventions, sheet: Sheet, rows: seq<PrivateRow>)
    ensures TopRows(sheet, |rows|) == Readbacks(how, rows) <==> OnTop(how, rows, sheet.rows)
  {
    hide Padded, Readback;
    var top, back := TopRows(sheet, |rows|), Readbacks(how, rows);
    forall i | 0 <= i < |sheet.rows| {
      PaddedCells(sheet.rows[i], 14);
    }
    if OnTop(how, rows, sheet.rows) {
      forall i | 0 <= i < |rows| ensures top[i] == back[i] {
        forall c | 0 <= c < 14 ensures top[i][c] == back[i][c] {
          assert CellAt(sheet.rows[i], c) == Readback(how, rows[i])[c];
        }
      }
      assert top == back;
    }
    if top == back {
      forall i, c | 0 <= i < |rows| && 0 <= c < 14 ensures CellAt(sheet.rows[i], c) == Readback(how, rows[i])[c] {
        assert top[i] == back[i] && top[i][c] == Padded(sheet.rows[i], 14)[c];
      }
    }
  }

  /**
   * Every way an insertion ends. Nothing to import succeeds without a write; a failure before the write changes
   * nothing; at the expected revision the rows go on top, even when the answer is then lost; at another revision the
   * sheet is left alone, and the call succeeds only if the rows are on top already.
   */
  lemma InsertEnds(how: Conventions, sheet: Sheet, rows: seq<PrivateRow>, expectedRevision: int, fault: Fault,
      bump: nat)
    ensures var (after, answer) := Insert(how, sheet, rows, expectedRevision, fault, bump);
      if rows == [] then after == sheet && answer.Ok? && Verified(answer.value, 0)
      else if fault == BeforeWrite then after == sheet && answer == Err(External)
      else if sheet.revision == expectedRevision then
        && WrittenOnTop(how, rows, sheet.rows, after.rows) && after.revision > sheet.revision
        && (if fault == AfterWrite then answer == Err(External) else answer.Ok? && Verified(answer.value, |rows|))
      else
        && after == sheet
        && (if fault == AfterWrite then answer == Err(External)
            else if OnTop(how, rows, sheet.rows) then answer.Ok? && Verified(answer.value, |rows|)
            else answer == Err(Conflict))
  {
    hide Strip, OnTop, TopRows;
    TopRowsAreOnTop(how, sheet, rows);
  }

  /** Every way a confirmation ends: only a previewed run is written, once, and its result is kept for the next call. */
  lemma ConfirmationEnds(how: Conventions, st: State, id: string, fault: Fault, fate: Fate, bump: nat)
    ensures var (after, answer) := Confirm(how, st, id, fault, fate, bump);
      if id !in st.runs then after == st && answer == Err(NotFound)
      else
        var run := st.runs[id];
        match run.status
        case Completed(result) => after == st && answer == Ok(result)
        case Running => after == st && answer == Err(Conflict)
        case Failed => after == st && answer == Err(Conflict)
        case Previewed =>
          && (after.sheet, answer) == Insert(how, st.sheet, run.preview.rows, run.expectedRevision, fault, bump)
          && after.runs.Keys == st.runs.Keys && (forall other :: other in st.runs && other != id ==>
            after.runs[other] == st.runs[other])
          && after.runs[id].preview == run.preview && after.runs[id].expectedRevision == run.expectedRevision
          && match answer
             case Ok(result) => after.runs[id].status == Completed(result)
             case Err(_) =>
               match fate
               case Recorded => after.runs[id].status == Failed
               case Undone => after.runs[id].status == Previewed
               case CutOff => after.runs[id].status == Running
  {
    hide Insert;
  }

  /** A preview is stored with the revision it was made at, the sheet is left alone; a refused one leaves nothing. */
  lemma PreviewIsStored(how: Conventions, st: State, id: string, publicRows: seq<PublicRow>, day: Day,
                        operatorName: string, matchGroup: bool)
    ensures var (after, answer) := MakePreview(how, st, id, publicRows, day, operatorName, matchGroup);
      && after.sheet == st.sheet
      && answer == BuildPreview(how, publicRows, st.sheet.rows, day, operatorName, matchGroup)
      && match answer
         case Err(_) => after == st
         case Ok(preview) =>
           && id in after.runs && after.runs == st.runs[id := after.runs[id]]
           && after.runs[id].preview == preview && after.runs[id].status == Previewed
           && after.runs[id].expectedRevision == st.sheet.revision
  {
    hide BuildPreview;
  }

  /** A run takes every step: previews under fresh ids, and all confirmations. */
  lemma EveryStepIsTaken(how: Conventions, st: State, steps: seq<Step>, step: Step)
    ensures var before := After(how, st, steps);
      var after := After(how, st, steps + [step]);
      && (step.ConfirmStep? ==> after == Confirm(how, before, step.id, step.fault, step.fate, step.bump).0)
      && (step.PreviewStep? && step.id in before.runs ==> after == before)
      && (step.PreviewStep? && step.id !in before.runs ==>
        after == MakePreview(how, before, step.id, step.publicRows, step.day, step.operatorName, step.matchGroup).0)
  {
    assert (steps + [step])[..|steps|] == steps;
  }
}
