/** The two account tables, as the in-memory sheet keeps them. */
module AccountSheets {
  import opened Basics
  import opened Sorting

  /** One row of an account table; an empty drama name means the account is free. */
  datatype AccountRow = AccountRow(
    rowNumber: int,
    name: string,
    cid: string,
    group: string,
    enabled: bool,
    isTest: bool,
    dramaName: string)

  type Sheet = seq<AccountRow>

  datatype Kind = Iaa | Iap

  datatype Sheets = Sheets(iaa: Sheet, iap: Sheet)

  function RowsOf(sheets: Sheets, kind: Kind): Sheet {
    match kind
    case Iaa => sheets.iaa
    case Iap => sheets.iap
  }

  function WithRows(sheets: Sheets, kind: Kind, rows: Sheet): Sheets {
    match kind
    case Iaa => sheets.(iaa := rows)
    case Iap => sheets.(iap := rows)
  }

  ghost predicate NumbersUnique(rows: Sheet) {
    forall i, j :: 0 <= i < j < |rows| ==> rows[i].rowNumber != rows[j].rowNumber
  }

  /** The row a dictionary keyed by row number ends up with: the last of that number. */
  function LastWith(rows: Sheet, number: int): (index: Option<nat>)
    ensures index.Some? ==> index.value < |rows| && rows[index.value].rowNumber == number
    ensures index.Some? ==> forall j :: index.value < j < |rows| ==> rows[j].rowNumber != number
    ensures index.None? ==> forall j :: 0 <= j < |rows| ==> rows[j].rowNumber != number
  {
    if rows == [] then None
    else if rows[|rows| - 1].rowNumber == number then Some(|rows| - 1)
    else LastWith(rows[..|rows| - 1], number)
  }

  lemma SameNumbersSameLast(rows: Sheet, other: Sheet, number: int)
    requires |rows| == |other| && forall i :: 0 <= i < |rows| ==> rows[i].rowNumber == other[i].rowNumber
    ensures LastWith(rows, number) == LastWith(other, number)
  {
    var x, y := LastWith(rows, number), LastWith(other, number);
    assert x.Some? ==> other[x.value].rowNumber == number;
    assert y.Some? ==> rows[y.value].rowNumber == number;
  }

  /** Writing one name into each numbered row in turn; false when a number has no row, earlier ones written. */
  function WriteNames(rows: Sheet, numbers: seq<int>, name: string): (Sheet, bool)
    decreases |numbers|
  {
    if numbers == [] then (rows, true)
    else
      match LastWith(rows, numbers[0])
      case None => (rows, false)
      case Some(k) => WriteNames(rows[k := rows[k].(dramaName := name)], numbers[1..], name)
  }

  function WriteFlag(rows: Sheet, number: int): (Sheet, bool) {
    match LastWith(rows, number)
    case None => (rows, false)
    case Some(k) => (rows[k := rows[k].(isTest := true)], true)
  }

  /** Blank copies of the template below row `last`. */
  function Appended(last: int, template: Sheet): Sheet {
    seq(|template|, i requires 0 <= i < |template| =>
      template[i].(rowNumber := last + i + 1, isTest := false, dramaName := ""))
  }

  function MaxNumber(rows: Sheet): (last: int)
    ensures forall i :: 0 <= i < |rows| ==> rows[i].rowNumber <= last
    ensures rows == [] ==> last == 1
    ensures rows != [] ==> exists i :: 0 <= i < |rows| && rows[i].rowNumber == last
  {
    if rows == [] then 1
    else if |rows| == 1 then rows[0].rowNumber
    else
      var last := MaxNumber(rows[1..]);
      assert rows == [rows[0]] + rows[1..];
      if rows[0].rowNumber >= last then rows[0].rowNumber else
        (var i :| 0 <= i < |rows[1..]| && rows[1..][i].rowNumber == last;
         assert rows[i + 1].rowNumber == last; last)
  }

  // ---- writing by number is writing by row, when numbers are unique ----

  function Numbers(rows: Sheet): set<int> {
    set i | 0 <= i < |rows| :: rows[i].rowNumber
  }

  function NumberList(rows: Sheet): seq<int> {
    seq(|rows|, i requires 0 <= i < |rows| => rows[i].rowNumber)
  }

  /** `rows` with `name` in exactly the numbered rows. */
  function Named(rows: Sheet, numbers: set<int>, name: string): Sheet {
    seq(|rows|, i requires 0 <= i < |rows| =>
      if rows[i].rowNumber in numbers then rows[i].(dramaName := name) else rows[i])
  }

  function Flagged(rows: Sheet, number: int): Sheet {
    seq(|rows|, i requires 0 <= i < |rows| =>
      if rows[i].rowNumber == number then rows[i].(isTest := true) else rows[i])
  }

  lemma {:induction false} WriteNamesIsPointwise(rows: Sheet, numbers: seq<int>, name: string)
    requires NumbersUnique(rows) && forall n :: n in numbers ==> n in Numbers(rows)
    ensures WriteNames(rows, numbers, name) == (Named(rows, Members(numbers), name), true)
    decreases |numbers|
  {
    var all := Members(numbers);
    if numbers == [] {
      assert Named(rows, all, name) == rows;
    } else {
      assert numbers[0] in numbers;
      var k := LastWith(rows, numbers[0]).value;
      var next := rows[k := rows[k].(dramaName := name)];
      assert forall i :: 0 <= i < |rows| ==> next[i].rowNumber == rows[i].rowNumber;
      assert Numbers(next) == Numbers(rows);
      WriteNamesIsPointwise(next, numbers[1..], name);
      assert all == {numbers[0]} + Members(numbers[1..]);
      assert Named(next, Members(numbers[1..]), name) == Named(rows, all, name);
    }
  }

  lemma WriteFlagIsPointwise(rows: Sheet, number: int)
    requires NumbersUnique(rows) && number in Numbers(rows)
    ensures WriteFlag(rows, number) == (Flagged(rows, number), true)
  {
    var k := LastWith(rows, number).value;
    assert rows[k := rows[k].(isTest := true)] == Flagged(rows, number);
  }

  lemma AppendKeepsNumbersUnique(rows: Sheet, template: Sheet)
    requires NumbersUnique(rows)
    ensures NumbersUnique(rows + Appended(MaxNumber(rows), template))
  {
  }
}
