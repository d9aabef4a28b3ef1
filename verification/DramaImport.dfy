/** Turning public drama rows into private ones: the preview of an import, free of repetitions. */
module DramaImport {
  import opened Basics
  import opened Sorting
  import opened Text

  type Cells = seq<string>

  /** The columns A to N of a private row. */
  type FullCells = cells: Cells | |cells| == 14 witness Blank(14)

  datatype PublicRow = PublicRow(rowNumber: int, cells: Cells)

  /** How names and platforms are folded before comparison, and which texts the sheet counts as numbers. */
  datatype Conventions = Conventions(name: string -> string, platform: string -> string, isNumber: string -> bool)

  /** What identifies a drama row: folded name and platform, and the trimmed text of its time. */
  datatype Key = Key(name: string, platform: string, time: string)

  datatype PrivateRow = PrivateRow(sourceRow: int, key: Key, cells: FullCells)

  datatype RowProblem = NoName | NoTime | NoPlatform

  datatype RowError = RowError(sourceRow: int, problem: RowProblem)

  datatype Day = Day(year: nat, month: nat, day: nat)

  datatype Operator = Operator(name: string, groupPrefix: string, completionColumn: nat)

  const OPERATORS: seq<Operator> := [
    Operator("赖亚健", "A", 15), Operator("韩亚栋", "A", 16), Operator("高有闯", "A", 17), Operator("史浩镔", "A", 18),
    Operator("陈冠鑫", "B", 19), Operator("施凯波", "B", 20), Operator("田雨", "B", 21), Operator("张朔", "B", 22),
    Operator("刘婧雯", "C", 23), Operator("甘心远", "C", 24), Operator("林浩东", "C", 25), Operator("张子豪", "C", 26)]

  function OperatorNamed(operators: seq<Operator>, name: string): Option<Operator> {
    if operators == [] then None
    else if operators[0].name == name then Some(operators[0])
    else OperatorNamed(operators[1..], name)
  }

  function ResolveOperator(name: string): Option<Operator> {
    OperatorNamed(OPERATORS, Strip(name))
  }

  function Blank(n: nat): Cells {
    seq(n, i => "")
  }

  /** Exactly `n` cells, filled up with empty ones or cut. */
  function Padded(cells: Cells, n: nat): (padded: Cells)
    ensures |padded| == n
  {
    (cells + Blank(n))[..n]
  }

  function IdentityKey(how: Conventions, name: string, platform: string, time: string): Key {
    Key(how.name(name), how.platform(platform), Strip(time))
  }

  /** The identity of a private row; none when name, time or platform is blank. */
  function PrivateIdentity(how: Conventions, raw: Cells): Option<Key> {
    var cells := Padded(raw, 14);
    if Strip(cells[4]) == "" || Strip(cells[5]) == "" || Strip(cells[7]) == "" then None
    else Some(IdentityKey(how, cells[5], cells[7], cells[4]))
  }

  function Identities(how: Conventions, rows: seq<Cells>): set<Key> {
    set row | row in rows && PrivateIdentity(how, row).Some? :: PrivateIdentity(how, row).value
  }

  predicate IsDateSeparator(c: char) {
    c == '-' || c == '/'
  }

  /** The date a text starts with: year-month-day, then white space or the end. */
  function DatePrefix(raw: string): Option<Day> {
    var s := LeftStrip(raw);
    var y := DigitsAt(s);
    if y != 4 || |s| == 4 || !IsDateSeparator(s[4]) then None
    else
      var afterYear := s[5..];
      var m := DigitsAt(afterYear);
      if m == 0 || m > 2 || |afterYear| == m || !IsDateSeparator(afterYear[m]) then None
      else
        var afterMonth := afterYear[m + 1..];
        var d := DigitsAt(afterMonth);
        if d == 0 || d > 2 || (|afterMonth| > d && !IsSpace(afterMonth[d])) then None
        else Some(Day(Number(s[..4]), Number(afterYear[..m]), Number(afterMonth[..d])))
  }

  predicate IsBusinessDay(raw: string, day: Day) {
    DatePrefix(raw) == Some(day)
  }

  predicate IsOperatorRow(row: PublicRow, operator: Operator, matchGroup: bool) {
    var group := if |row.cells| > 2 then Strip(row.cells[2]) else "";
    Contains(group, operator.name) || (matchGroup && operator.groupPrefix <= group)
  }

  /** One public row as a private row, or what it lacks. */
  function MapPublicRow(how: Conventions, row: PublicRow, completionColumn: nat): Result<PrivateRow>
    requires completionColumn < 28
  {
    if RowProblemOf(row).Some? then Err(Invalid)
    else
      var cells := Padded(row.cells, 28);
      var mapped := [cells[0], cells[1], cells[2], cells[3], cells[4], Strip(cells[5]), cells[9], cells[10], cells[11],
                     cells[12], cells[13], cells[14], cells[completionColumn], cells[27]];
      Ok(PrivateRow(row.rowNumber, IdentityKey(how, mapped[5], mapped[7], mapped[4]), mapped))
  }

  function RowProblemOf(row: PublicRow): Option<RowProblem> {
    var cells := Padded(row.cells, 28);
    if Strip(cells[5]) == "" then Some(NoName)
    else if Strip(cells[4]) == "" then Some(NoTime)
    else if Strip(cells[10]) == "" then Some(NoPlatform)
    else None
  }

  datatype ImportPreview = ImportPreview(
    day: Day,
    sourceCount: nat,
    duplicateCount: nat,
    rows: seq<PrivateRow>,
    errors: seq<RowError>,
    operatorName: string)

  /** The public rows of the day that belong to the operator. */
  predicate IsSource(row: PublicRow, day: Day, operator: Operator, matchGroup: bool) {
    IsBusinessDay(if |row.cells| > 4 then row.cells[4] else "", day) && IsOperatorRow(row, operator, matchGroup)
  }

  function Sources(rows: seq<PublicRow>, day: Day, operator: Operator, matchGroup: bool): seq<PublicRow> {
    if rows == [] then []
    else
      var rest := Sources(rows[1..], day, operator, matchGroup);
      if IsSource(rows[0], day, operator, matchGroup) then [rows[0]] + rest else rest
  }

  predicate KnownOperator(operator: Operator) {
    operator.completionColumn < 28
  }

  function Keys(rows: seq<PrivateRow>): set<Key> {
    set row | row in rows :: row.key
  }

  /** Take the sources in turn: keep the first of each new identity, count the others. */
  function Scan(how: Conventions, sources: seq<PublicRow>, existing: set<Key>, operator: Operator): (seq<PrivateRow>,
      seq<RowError>, nat)
    requires KnownOperator(operator)
  {
    if sources == [] then ([], [], 0)
    else
      var (rows, errors, duplicates) := Scan(how, sources[..|sources| - 1], existing, operator);
      var source := sources[|sources| - 1];
      match RowProblemOf(source)
      case Some(problem) => (rows, errors + [RowError(source.rowNumber, problem)], duplicates)
      case None =>
        var mapped := MapPublicRow(how, source, operator.completionColumn).value;
        if mapped.key in existing + Keys(rows) then (rows, errors, duplicates + 1)
        else (rows + [mapped], errors, duplicates)
  }

  function BuildPreview(how: Conventions, publicRows: seq<PublicRow>, privateRows: seq<Cells>, day: Day,
                        operatorName: string, matchGroup: bool): Result<ImportPreview>
  {
    var operator := ResolveOperator(operatorName);
    if operator.None? then Err(Invalid)
    else
      ResolvedIsKnown(operatorName);
      var sources := Sources(publicRows, day, operator.value, matchGroup);
      var (rows, errors, duplicates) := Scan(how, sources, Identities(how, privateRows), operator.value);
      Ok(ImportPreview(day, |sources|, duplicates, rows, errors, operator.value.name))
  }

  lemma {:induction false} OperatorNamedIsListed(operators: seq<Operator>, name: string)
    ensures OperatorNamed(operators, name).Some? ==> OperatorNamed(operators, name).value in operators
  {
    if operators != [] {
      OperatorNamedIsListed(operators[1..], name);
    }
  }

  lemma ResolvedIsKnown(name: string)
    ensures ResolveOperator(name).Some? ==> KnownOperator(ResolveOperator(name).value)
  {
    OperatorNamedIsListed(OPERATORS, Strip(name));
  }

  // ---- the service ----

  method BuildImportPreview(how: Conventions, publicRows: seq<PublicRow>, privateRows: seq<Cells>, day: Day,
                            operatorName: string, matchGroup: bool) returns (preview: Result<ImportPreview>)
    ensures preview == BuildPreview(how, publicRows, privateRows, day, operatorName, matchGroup)
  {
    hide MapPublicRow, RowProblemOf, IsSource, Scan, Sources, Identities, Keys, ResolveOperator;
    var found := ResolveOperator(operatorName);
    if found.None? {
      return Err(Invalid);
    }
    ResolvedIsKnown(operatorName);
    var operator := found.value;
    var existing := Identities(how, privateRows);
    var known := existing;
    var rows: seq<PrivateRow> := [];
    var errors: seq<RowError> := [];
    var duplicates: nat := 0;
    var count: nat := 0;
    ghost var sources: seq<PublicRow> := [];
    NothingScanned(how, existing, operator, day, matchGroup);
    for i := 0 to |publicRows|
      invariant sources == Sources(publicRows[..i], day, operator, matchGroup) && count == |sources|
      invariant (rows, errors, duplicates) == Scan(how, sources, existing, operator)
      invariant known == existing + Keys(rows)
    {
      var source := publicRows[i];
      SourcesAppend(publicRows[..i], source, day, operator, matchGroup);
      assert publicRows[..i + 1] == publicRows[..i] + [source];
      if IsSource(source, day, operator, matchGroup) {
        ScanNext(how, sources, source, existing, operator);
        sources := sources + [source];
        count := count + 1;
        var problem := RowProblemOf(source);
        if problem.Some? {
          errors := errors + [RowError(source.rowNumber, problem.value)];
        } else {
          MapsWithoutProblem(how, source, operator.completionColumn);
          var mapped := MapPublicRow(how, source, operator.completionColumn).value;
          if mapped.key in known {
            duplicates := duplicates + 1;
          } else {
            KeysAppend(rows, mapped);
            known := known + {mapped.key};
            rows := rows + [mapped];
          }
        }
      }
    }
    assert publicRows[..|publicRows|] == publicRows;
    preview := Ok(ImportPreview(day, count, duplicates, rows, errors, operator.name));
  }

  lemma NothingScanned(how: Conventions, existing: set<Key>, operator: Operator, day: Day, matchGroup: bool)
    requires KnownOperator(operator)
    ensures Scan(how, [], existing, operator) == ([], [], 0)
    ensures Sources([], day, operator, matchGroup) == []
    ensures Keys([]) == {}
  {
  }

  lemma ScanNext(how: Conventions, sources: seq<PublicRow>, source: PublicRow, existing: set<Key>, operator: Operator)
    requires KnownOperator(operator)
    ensures RowProblemOf(source).None? ==> MapPublicRow(how, source, operator.completionColumn).Ok?
    ensures Scan(how, sources + [source], existing, operator) ==
      var (rows, errors, duplicates) := Scan(how, sources, existing, operator);
      match RowProblemOf(source)
      case Some(problem) => (rows, errors + [RowError(source.rowNumber, problem)], duplicates)
      case None =>
        var mapped := MapPublicRow(how, source, operator.completionColumn).value;
        if mapped.key in existing + Keys(rows) then (rows, errors, duplicates + 1)
            else (rows + [mapped], errors, duplicates)
  {
    hide MapPublicRow, RowProblemOf;
    if RowProblemOf(source).None? {
      MapsWithoutProblem(how, source, operator.completionColumn);
    }
    assert (sources + [source])[..|sources|] == sources;
  }

  lemma MapsWithoutProblem(how: Conventions, row: PublicRow, completionColumn: nat)
    requires completionColumn < 28 && RowProblemOf(row).None?
    ensures MapPublicRow(how, row, completionColumn).Ok?
  {
  }

  lemma KeysAppend(rows: seq<PrivateRow>, row: PrivateRow)
    ensures Keys(rows + [row]) == Keys(rows) + {row.key}
  {
    forall k ensures k in Keys(rows + [row]) <==> k in Keys(rows) + {row.key} {
      if k in Keys(rows) {
        var r :| r in rows && r.key == k;
        assert r in rows + [row];
      }
      assert row in rows + [row];
    }
  }

  lemma {:induction false} SourcesAppend(rows: seq<PublicRow>, row: PublicRow, day: Day, operator: Operator,
      matchGroup: bool)
    ensures Sources(rows + [row], day, operator, matchGroup)
      == Sources(rows, day, operator, matchGroup) + if IsSource(row, day, operator, matchGroup) then [row] else []
    decreases |rows|
  {
    hide IsSource;
    if rows == [] {
      assert (rows + [row])[1..] == [];
    } else {
      SourcesAppend(rows[1..], row, day, operator, matchGroup);
      assert (rows + [row])[0] == rows[0] && (rows + [row])[1..] == rows[1..] + [row];
    }
  }

  // ---- what a preview says ----

  ghost predicate DistinctKeys(rows: seq<PrivateRow>) {
    forall i, j :: 0 <= i < j < |rows| ==> rows[i].key != rows[j].key
  }

  /** The identities of the sources that can be imported at all. */
  function ValidKeys(how: Conventions, sources: seq<PublicRow>, operator: Operator): set<Key>
    requires KnownOperator(operator)
  {
    set s | s in sources && RowProblemOf(s).None? :: MapPublicRow(how, s, operator.completionColumn).value.key
  }

  function Errors(sources: seq<PublicRow>): seq<RowError> {
    if sources == [] then []
    else
      var source := sources[|sources| - 1];
      Errors(sources[..|sources| - 1]) + if RowProblemOf(source).Some?
          then [RowError(source.rowNumber, RowProblemOf(source).value)] else []
  }

  /**
   * Every source is new, a duplicate or invalid; the new rows carry each importable identity that is not there yet
   * exactly once, and nothing else.
   */
  lemma {:induction false} ScanIsComplete(how: Conventions, sources: seq<PublicRow>, existing: set<Key>,
      operator: Operator)
    requires KnownOperator(operator)
    ensures var (rows, errors, duplicates) := Scan(how, sources, existing, operator);
      && |rows| + |errors| + duplicates == |sources|
      && errors == Errors(sources)
      && DistinctKeys(rows)
      && Keys(rows) == ValidKeys(how, sources, operator) - existing
    decreases |sources|
  {
    hide MapPublicRow, RowProblemOf;
    if sources != [] {
      var n := |sources| - 1;
      var (source, earlier) := (sources[n], sources[..n]);
      ScanIsComplete(how, earlier, existing, operator);
      assert sources == earlier + [source];
      var (rows, errors, duplicates) := Scan(how, earlier, existing, operator);
      if RowProblemOf(source).None? {
        MapsWithoutProblem(how, source, operator.completionColumn);
        var mapped := MapPublicRow(how, source, operator.completionColumn).value;
        KeysAppend(rows, mapped);
        assert ValidKeys(how, sources, operator) == ValidKeys(how, earlier, operator) + {mapped.key};
        assert mapped.key !in Keys(rows) ==> DistinctKeys(rows + [mapped]);
      } else {
        assert ValidKeys(how, sources, operator) == ValidKeys(how, earlier, operator);
      }
    }
  }
}
