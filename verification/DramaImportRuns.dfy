/** Previews and confirmations over time: one sheet with a revision, many outstanding previews. */
module DramaImportRuns {
  import opened Basics
  import opened Sorting
  import opened Text
  import opened DramaImport

  /** The private sheet below its header: row 2 comes first. */
  datatype Sheet = Sheet(rows: seq<Cells>, revision: int)

  /** What goes wrong in a sheet call: nothing, an error before the write, or one after it. */
  datatype Fault = NoFault | BeforeWrite | AfterWrite

  datatype InsertResult = InsertResult(insertedCount: nat, insertedRows: seq<int>, verified: bool)

  /** What a written row reads back as: column N holds the result of a formula over column M. */
  function Readback(how: Conventions, row: PrivateRow): FullCells
  {
    row.cells[13 := if how.isNumber(Strip(row.cells[12])) then "OK" else "有人未上"]
  }

  function Readbacks(how: Conventions, rows: seq<PrivateRow>): seq<Cells> {
    seq(|rows|, i requires 0 <= i < |rows| => Readback(how, rows[i]))
  }

  /** The first `count` rows, each as 14 cells. */
  function TopRows(sheet: Sheet, count: nat): seq<Cells> {
    var n := if count <= |sheet.rows| then count else |sheet.rows|;
    seq(n, i requires 0 <= i < n => Padded(sheet.rows[i], 14))
  }

  function Inserted(count: nat): InsertResult {
    InsertResult(count, seq(count, i => i + 2), true)
  }

  /** insert_private_rows on a sheet whose revision grows with every write. */
  function Insert(how: Conventions, sheet: Sheet, rows: seq<PrivateRow>, expectedRevision: int, fault: Fault,
      bump: nat): (Sheet, Result<InsertResult>)
  {
    if rows == [] then (sheet, Ok(InsertResult(0, [], true)))
    else if fault == BeforeWrite then (sheet, Err(External))
    else if sheet.revision != expectedRevision then
      (sheet,
       if fault == AfterWrite then Err(External)
       else if TopRows(sheet, |rows|) == Readbacks(how, rows) then Ok(Inserted(|rows|))
       else Err(Conflict))
    else
      (Sheet(Readbacks(how, rows) + sheet.rows, sheet.revision + 1 + bump),
       if fault == AfterWrite then Err(External) else Ok(Inserted(|rows|)))
  }

  datatype RunStatus = Previewed | Running | Completed(result: InsertResult) | Failed

  datatype Run = Run(preview: ImportPreview, expectedRevision: int, status: RunStatus)

  /** `written` is the history of runs whose rows went into the sheet; no operation reads it. */
  datatype State = State(sheet: Sheet, runs: map<string, Run>, written: seq<string>)

  /** What a failed confirmation leaves behind: recorded, undone with its transaction, or cut off halfway. */
  datatype Fate = Recorded | Undone | CutOff

  function StatusAfter(fate: Fate): RunStatus {
    match fate case Recorded => Failed case Undone => Previewed case CutOff => Running
  }

  function MakePreview(how: Conventions, st: State, id: string, publicRows: seq<PublicRow>, day: Day,
      operatorName: string, matchGroup: bool): (State, Result<ImportPreview>) {
    var preview := BuildPreview(how, publicRows, st.sheet.rows, day, operatorName, matchGroup);
    (if preview.Ok? then st.(runs := st.runs[id := Run(preview.value, st.sheet.revision, Previewed)]) else st, preview)
  }

  function Confirm(how: Conventions, st: State, id: string, fault: Fault, fate: Fate, bump: nat): (State,
      Result<InsertResult>)
  {
    if id !in st.runs then (st, Err(NotFound))
    else
      var run := st.runs[id];
      match run.status
      case Completed(result) => (st, Ok(result))
      case Running => (st, Err(Conflict))
      case Failed => (st, Err(Conflict))
      case Previewed =>
        var (sheet, answer) := Insert(how, st.sheet, run.preview.rows, run.expectedRevision, fault, bump);
        var status := if answer.Ok? then Completed(answer.value) else StatusAfter(fate);
        (State(sheet, st.runs[id := run.(status := status)], if sheet == st.sheet then st.written
            else st.written + [id]), answer)
  }

  datatype Step =
    | PreviewStep(id: string, publicRows: seq<PublicRow>, day: Day, operatorName: string, matchGroup: bool)
    | ConfirmStep(id: string, fault: Fault, fate: Fate, bump: nat)

  /** Preview ids are new: they are random UUIDs. */
  predicate Enabled(st: State, step: Step) {
    match step
    case PreviewStep(id, _, _, _, _) => id !in st.runs
    case ConfirmStep(_, _, _, _) => true
  }

  function Next(how: Conventions, st: State, step: Step): State {
    match step
    case PreviewStep(id, publicRows, day, operatorName, matchGroup) =>
      MakePreview(how, st, id, publicRows, day, operatorName, matchGroup).0
    case ConfirmStep(id, fault, fate, bump) => Confirm(how, st, id, fault, fate, bump).0
  }

  // ---- previewing again ----

  lemma {:induction false} ScannedRowsAreMapped(how: Conventions, sources: seq<PublicRow>, existing: set<Key>,
      operator: Operator)
    requires KnownOperator(operator)
    ensures forall row :: row in Scan(how, sources, existing, operator).0 ==> Stored(how, row)
    decreases |sources|
  {
    hide MapPublicRow, RowProblemOf, Stored;
    if sources != [] {
      var n := |sources| - 1;
      ScannedRowsAreMapped(how, sources[..n], existing, operator);
      if RowProblemOf(sources[n]).None? {
        MapsWithoutProblem(how, sources[n], operator.completionColumn);
        MappedIsStored(how, sources[n], operator.completionColumn);
      }
    }
  }

  /** A row that keeps its identity when written to the sheet and read again. */
  predicate Stored(how: Conventions, row: PrivateRow) {
    && PrivateIdentity(how, row.cells) == Some(row.key)
    && PrivateIdentity(how, Readback(how, row)) == Some(row.key)
  }

  lemma MappedIsStored(how: Conventions, source: PublicRow, completionColumn: nat)
    requires completionColumn < 28 && RowProblemOf(source).None?
    ensures MapPublicRow(how, source, completionColumn).Ok?
    ensures Stored(how, MapPublicRow(how, source, completionColumn).value)
  {
    var row := MapPublicRow(how, source, completionColumn).value;
    StripTwice(Padded(source.cells, 28)[5]);
    IdentityOfFull(how, row.cells);
    IdentityOfFull(how, Readback(how, row));
  }

  lemma IdentityOfFull(how: Conventions, cells: Cells)
    requires |cells| == 14
    ensures PrivateIdentity(how, cells) ==
      if Strip(cells[4]) == "" || Strip(cells[5]) == "" || Strip(cells[7]) == "" then None
      else Some(IdentityKey(how, cells[5], cells[7], cells[4]))
  {
    assert Padded(cells, 14) == cells;
  }

  ghost predicate AllStored(how: Conventions, rows: seq<PrivateRow>) {
    forall i :: 0 <= i < |rows| ==> Stored(how, rows[i])
  }

  lemma PreviewsAreStorable(how: Conventions, publicRows: seq<PublicRow>, privateRows: seq<Cells>, day: Day,
      operatorName: string, matchGroup: bool)
    ensures var preview := BuildPreview(how, publicRows, privateRows, day, operatorName, matchGroup);
      preview.Ok? ==>
        && AllStored(how, preview.value.rows) && DistinctKeys(preview.value.rows)
        && Keys(preview.value.rows) * Identities(how, privateRows) == {}
        && preview.value.sourceCount == |preview.value.rows| + |preview.value.errors| + preview.value.duplicateCount
  {
    hide Scan, Stored, DistinctKeys, ResolveOperator, Sources, Identities;
    var operator := ResolveOperator(operatorName);
    if operator.Some? {
      ResolvedIsKnown(operatorName);
      var sources := Sources(publicRows, day, operator.value, matchGroup);
      ScannedRowsAreMapped(how, sources, Identities(how, privateRows), operator.value);
      ScanIsComplete(how, sources, Identities(how, privateRows), operator.value);
    }
  }

  lemma IdentitiesOfReadbacks(how: Conventions, rows: seq<PrivateRow>, below: seq<Cells>)
    requires AllStored(how, rows)
    ensures Identities(how, Readbacks(how, rows) + below) == Keys(rows) + Identities(how, below)
  {
    hide PrivateIdentity, Readback;
    var top := Readbacks(how, rows);
    forall k ensures k in Identities(how, top + below) <==> k in Keys(rows) + Identities(how, below) {
      if k in Identities(how, top + below) {
        var row :| row in top + below && PrivateIdentity(how, row) == Some(k);
        if row in top {
          var i :| 0 <= i < |top| && top[i] == row;
          assert Stored(how, rows[i]) && rows[i] in rows;
        }
      }
      if k in Keys(rows) {
        var i :| 0 <= i < |rows| && rows[i].key == k;
        assert Stored(how, rows[i]) && top[i] in top + below;
      }
      if k in Identities(how, below) {
        var row :| row in below && PrivateIdentity(how, row) == Some(k);
        assert row in top + below;
      }
    }
  }

  /** Once a preview's rows are in the sheet, previewing again finds nothing new: only duplicates and
      the same errors. */
  lemma PreviewAfterImportFindsNothing(how: Conventions, publicRows: seq<PublicRow>, privateRows: seq<Cells>, day: Day,
      operatorName: string, matchGroup: bool)
    requires BuildPreview(how, publicRows, privateRows, day, operatorName, matchGroup).Ok?
    ensures var first := BuildPreview(how, publicRows, privateRows, day, operatorName, matchGroup).value;
      var again := BuildPreview(how, publicRows, Readbacks(how, first.rows) + privateRows, day, operatorName,
          matchGroup);
      again.Ok? && again.value.rows == []
      && again.value.sourceCount == first.sourceCount && again.value.errors == first.errors
      && again.value.duplicateCount == first.sourceCount - |first.errors|
  {
    hide Scan, Stored, ResolveOperator, Sources, Identities, Readbacks, Errors, ValidKeys;
    PreviewsAreStorable(how, publicRows, privateRows, day, operatorName, matchGroup);
    ResolvedIsKnown(operatorName);
    var first := BuildPreview(how, publicRows, privateRows, day, operatorName, matchGroup).value;
    var operator := ResolveOperator(operatorName).value;
    var sources := Sources(publicRows, day, operator, matchGroup);
    var stored := Readbacks(how, first.rows) + privateRows;
    IdentitiesOfReadbacks(how, first.rows, privateRows);
    ScanIsComplete(how, sources, Identities(how, privateRows), operator);
    ScanIsComplete(how, sources, Identities(how, stored), operator);
    var again := BuildPreview(how, publicRows, stored, day, operatorName, matchGroup).value;
    assert Keys(again.rows) == {};
    RowsHaveKeys(again.rows);
  }

  lemma RowsHaveKeys(rows: seq<PrivateRow>)
    ensures rows != [] ==> Keys(rows) != {}
  {
    if rows != [] {
      assert rows[0].key in Keys(rows);
    }
  }

  // ---- runs ----

  /** A preview may still be written only while the sheet has the revision, and so the identities, it was made from. */
  ghost predicate RunFits(how: Conventions, st: State, id: string)
    requires id in st.runs
  {
    var run := st.runs[id];
    && AllStored(how, run.preview.rows) && DistinctKeys(run.preview.rows)
    && run.expectedRevision <= st.sheet.revision
    && (run.expectedRevision == st.sheet.revision ==>
          id !in st.written && Keys(run.preview.rows) * Identities(how, st.sheet.rows) == {})
  }

  ghost predicate Inv(how: Conventions, st: State) {
    && (forall id :: id in st.runs ==> RunFits(how, st, id))
    && (forall id :: id in st.written ==> id in st.runs)
    && Distinct(st.written)
  }

  /** New rows on top: each with an identity of its own that no other row has. */
  ghost predicate OwnIdentities(how: Conventions, added: seq<Cells>, base: seq<Cells>) {
    && (forall i :: 0 <= i < |added| ==>
      PrivateIdentity(how, added[i]).Some? && PrivateIdentity(how, added[i]).value !in Identities(how, base))
    && (forall i, j :: 0 <= i < j < |added| ==> PrivateIdentity(how, added[i]) != PrivateIdentity(how, added[j]))
  }

  /** `rows` is `base` with rows of new, distinct identities on top. */
  ghost predicate Grown(how: Conventions, base: seq<Cells>, rows: seq<Cells>) {
    |base| <= |rows| && rows[|rows| - |base|..] == base && OwnIdentities(how, rows[..|rows| - |base|], base)
  }

  lemma InsertGrows(how: Conventions, base: seq<Cells>, rows: seq<Cells>, added: seq<PrivateRow>)
    requires Grown(how, base, rows) && AllStored(how, added) && DistinctKeys(added)
    requires Keys(added) * Identities(how, rows) == {}
    ensures Grown(how, base, Readbacks(how, added) + rows)
  {
    hide PrivateIdentity, Readback;
    var earlier := rows[..|rows| - |base|];
    var top := Readbacks(how, added);
    var all := top + rows;
    assert all[..|all| - |base|] == top + earlier;
    forall i | 0 <= i < |top|
        ensures PrivateIdentity(how, top[i]) == Some(added[i].key) && added[i].key !in Identities(how, rows) {
      assert Stored(how, added[i]) && added[i].key in Keys(added);
      assert added[i].key !in Keys(added) * Identities(how, rows);
    }
    forall row | row in base ensures row in rows {
      var i :| 0 <= i < |base| && base[i] == row;
      assert rows[|rows| - |base| + i] == row;
    }
    assert Identities(how, base) <= Identities(how, rows);
    forall i | 0 <= i < |earlier| ensures PrivateIdentity(how, earlier[i]).value in Identities(how, rows) {
      assert earlier[i] in rows;
    }
  }

  lemma PreviewKeepsInv(how: Conventions, st: State, id: string, publicRows: seq<PublicRow>, day: Day,
      operatorName: string, matchGroup: bool)
    requires Inv(how, st) && id !in st.runs
    ensures Inv(how, MakePreview(how, st, id, publicRows, day, operatorName, matchGroup).0)
  {
    hide BuildPreview, AllStored, DistinctKeys, Identities;
    PreviewsAreStorable(how, publicRows, st.sheet.rows, day, operatorName, matchGroup);
    var after := MakePreview(how, st, id, publicRows, day, operatorName, matchGroup).0;
    forall other | other in after.runs ensures RunFits(how, after, other) {
      if other != id {
        assert RunFits(how, st, other);
      }
    }
  }

  lemma ConfirmKeepsInv(how: Conventions, st: State, id: string, fault: Fault, fate: Fate, bump: nat)
    requires Inv(how, st)
    ensures Inv(how, Confirm(how, st, id, fault, fate, bump).0)
    ensures forall base :: Grown(how, base, st.sheet.rows) ==>
      Grown(how, base, Confirm(how, st, id, fault, fate, bump).0.sheet.rows)
  {
    hide AllStored, DistinctKeys, Identities, Grown, Readbacks, TopRows;
    var after := Confirm(how, st, id, fault, fate, bump).0;
    if id in st.runs && st.runs[id].status == Previewed {
      var run := st.runs[id];
      assert RunFits(how, st, id);
      forall other | other in after.runs ensures RunFits(how, after, other) {
        assert RunFits(how, st, other);
      }
      if after.sheet != st.sheet {
        forall base | Grown(how, base, st.sheet.rows) ensures Grown(how, base, after.sheet.rows) {
          InsertGrows(how, base, st.sheet.rows, run.preview.rows);
        }
      }
    }
  }

  /** The state after a run of steps; a step that is not enabled changes nothing. */
  ghost function After(how: Conventions, st: State, steps: seq<Step>): State {
    if steps == [] then st
    else
      var before := After(how, st, steps[..|steps| - 1]);
      var step := steps[|steps| - 1];
      if Enabled(before, step) then Next(how, before, step) else before
  }

  /**
   * Over any run of previews and confirmations, failed and repeated ones included: no preview's rows are written
   * twice, and the sheet only gains rows with identities that no other row has.
   */
  lemma {:induction false} RunsNeverDuplicate(how: Conventions, start: Sheet, steps: seq<Step>)
    ensures var st := After(how, State(start, map[], []), steps);
      && Inv(how, st)
      && Distinct(st.written)
      && Grown(how, start.rows, st.sheet.rows)
    decreases |steps|
  {
    hide MakePreview, Confirm, RunFits, Identities;
    if steps != [] {
      RunsNeverDuplicate(how, start, steps[..|steps| - 1]);
      var before := After(how, State(start, map[], []), steps[..|steps| - 1]);
      match steps[|steps| - 1] {
        case PreviewStep(id, publicRows, day, operatorName, matchGroup) =>
          if id !in before.runs {
            PreviewKeepsInv(how, before, id, publicRows, day, operatorName, matchGroup);
            PreviewKeepsSheet(how, before, id, publicRows, day, operatorName, matchGroup);
          }
        case ConfirmStep(id, fault, fate, bump) =>
          ConfirmKeepsInv(how, before, id, fault, fate, bump);
      }
    }
  }

  lemma PreviewKeepsSheet(how: Conventions, st: State, id: string, publicRows: seq<PublicRow>, day: Day,
      operatorName: string, matchGroup: bool)
    ensures MakePreview(how, st, id, publicRows, day, operatorName, matchGroup).0.sheet == st.sheet
  {
  }

  /** Confirming a completed run again returns its first result and changes nothing. */
  lemma ConfirmAgain(how: Conventions, st: State, id: string, fault: Fault, fate: Fate, bump: nat, fault': Fault,
      fate': Fate, bump': nat)
    requires id in st.runs && Confirm(how, st, id, fault, fate, bump).1.Ok?
    ensures var (after, answer) := Confirm(how, st, id, fault, fate, bump);
      Confirm(how, after, id, fault', fate', bump') == (after, answer)
  {
    hide Insert;
  }

  /**
   * When the answer to a write is lost and the failure undone, confirming again reports success without writing
   * a second time, because the rows are recognised on top of the sheet.
   */
  lemma RetryAfterLostAnswer(how: Conventions, st: State, id: string, bump: nat, again: nat)
    requires id in st.runs
    requires st.runs[id].status == Previewed && st.runs[id].expectedRevision == st.sheet.revision
    ensures var (lost, first) := Confirm(how, st, id, AfterWrite, Undone, bump);
      var (after, second) := Confirm(how, lost, id, NoFault, Recorded, again);
      && second.Ok? && after.sheet == lost.sheet && after.written == lost.written
      && second.value.insertedCount == |st.runs[id].preview.rows|
      && after.sheet.rows == Readbacks(how, st.runs[id].preview.rows) + st.sheet.rows
  {
    var rows := st.runs[id].preview.rows;
    var lost := Confirm(how, st, id, AfterWrite, Undone, bump).0;
    assert [] + st.sheet.rows == st.sheet.rows;
    if rows != [] {
      forall i | 0 <= i < |rows| ensures Padded(lost.sheet.rows[i], 14) == Readback(how, rows[i]) {
        assert lost.sheet.rows[i] == Readbacks(how, rows)[i];
      }
      assert TopRows(lost.sheet, |rows|) == Readbacks(how, rows);
    }
  }
}
