/** Writing numbered rows in batches: one command for each run of consecutive row numbers. */
module RowBatching {
  import opened Basics

  ghost predicate Ascending(rows: seq<int>) {
    forall i, j :: 0 <= i < j < |rows| ==> rows[i] < rows[j]
  }

  predicate IsLeast(least: int, rows: set<int>) {
    least in rows && forall r :: r in rows ==> least <= r
  }

  lemma LeastExists(rows: set<int>)
    requires rows != {}
    ensures exists least :: IsLeast(least, rows)
  {
    var least := FirstExists(rows, (a: int, b: int) => a < b);
    assert IsLeast(least, rows);
  }

  /** The row numbers in ascending order. */
  function SortedRows(rows: set<int>): (sorted: seq<int>)
    ensures Ascending(sorted) && forall r :: r in sorted <==> r in rows
  {
    if rows == {} then []
    else
      LeastExists(rows);
      var least :| IsLeast(least, rows);
      [least] + SortedRows(rows - {least})
  }

  function Last<T>(s: seq<T>): T
    requires s != []
  {
    s[|s| - 1]
  }

  /** Consecutive numbers. */
  ghost predicate Run(rows: seq<int>) {
    rows != [] && forall i :: 0 <= i < |rows| ==> rows[i] == rows[0] + i
  }

  function Flat(groups: seq<seq<int>>): seq<int> {
    if groups == [] then [] else Flat(groups[..|groups| - 1]) + Last(groups)
  }

  /** Runs that cannot be made longer: a gap before each next one. */
  ghost predicate MaximalRuns(groups: seq<seq<int>>) {
    && (forall i :: 0 <= i < |groups| ==> Run(groups[i]))
    && (forall i :: 0 < i < |groups| ==> groups[i][0] > Last(groups[i - 1]) + 1)
  }

  /** Extend the last group by a row that follows it, or start a new one. */
  function Extended(groups: seq<seq<int>>, row: int): seq<seq<int>> {
    if groups == [] || Last(groups) == [] || row != Last(Last(groups)) + 1 then groups + [[row]]
    else groups[..|groups| - 1] + [Last(groups) + [row]]
  }

  function Groups(sorted: seq<int>): seq<seq<int>> {
    if sorted == [] then [] else Extended(Groups(sorted[..|sorted| - 1]), Last(sorted))
  }

  lemma FlatOneMore(groups: seq<seq<int>>, group: seq<int>)
    ensures Flat(groups + [group]) == Flat(groups) + group
  {
    assert (groups + [group])[..|groups|] == groups;
  }

  lemma ExtendedIsFlat(groups: seq<seq<int>>, row: int)
    ensures Flat(Extended(groups, row)) == Flat(groups) + [row]
  {
    FlatOneMore(groups, [row]);
    if groups != [] {
      var front := groups[..|groups| - 1];
      FlatOneMore(front, Last(groups) + [row]);
      assert front + [Last(groups)] == groups;
      FlatOneMore(front, Last(groups));
    }
  }

  /** The groups are the maximal runs of the sorted rows, in order, and nothing else. */
  lemma {:induction false} GroupsAreMaximalRuns(sorted: seq<int>)
    requires Ascending(sorted)
    ensures MaximalRuns(Groups(sorted)) && Flat(Groups(sorted)) == sorted
    ensures sorted != [] ==>
      Groups(sorted) != [] && Last(Groups(sorted)) != [] && Last(Last(Groups(sorted))) == Last(sorted)
    decreases |sorted|
  {
    if sorted != [] {
      var front := sorted[..|sorted| - 1];
      GroupsAreMaximalRuns(front);
      ExtendedIsFlat(Groups(front), Last(sorted));
      assert sorted == front + [Last(sorted)];
      ExtendedKeepsRuns(Groups(front), Last(sorted));
    }
  }

  lemma ExtendedKeepsRuns(groups: seq<seq<int>>, row: int)
    requires MaximalRuns(groups) && (groups != [] ==> Last(groups) != [] && row > Last(Last(groups)))
    ensures MaximalRuns(Extended(groups, row))
    ensures Extended(groups, row) != [] && Last(Extended(groups, row)) != [] && Last(Last(Extended(groups, row))) == row
  {
    if groups != [] {
      assert Run(Last(groups));
    }
    var extended := Extended(groups, row);
    forall i | 0 <= i < |extended| ensures Run(extended[i]) {
      if i < |groups| {
        assert Run(groups[i]);
      }
    }
    forall i | 0 < i < |extended| ensures extended[i][0] > Last(extended[i - 1]) + 1 {
      assert Run(extended[i]) && Run(extended[i - 1]);
      if i < |groups| {
        assert Run(groups[i]) && groups[i][0] > Last(groups[i - 1]) + 1;
      }
    }
  }

  // ---- grouping by value minus index ----

  /** Groups of neighbours whose value minus index agrees. */
  function KeyGroups(sorted: seq<int>): seq<seq<int>> {
    if sorted == [] then []
    else
      var n := |sorted| - 1;
      var groups := KeyGroups(sorted[..n]);
      if n > 0 && groups != [] && sorted[n] - n == sorted[n - 1] - (n - 1)
      then groups[..|groups| - 1] + [Last(groups) + [sorted[n]]]
      else groups + [[sorted[n]]]
  }

  /** Both ways of grouping give the same runs. */
  lemma {:induction false} KeysGroupTheSameRuns(sorted: seq<int>)
    requires Ascending(sorted)
    ensures KeyGroups(sorted) == Groups(sorted)
    decreases |sorted|
  {
    hide Flat, MaximalRuns, Run;
    if sorted != [] {
      var n := |sorted| - 1;
      KeysGroupTheSameRuns(sorted[..n]);
      GroupsAreMaximalRuns(sorted[..n]);
    }
  }

  /** First and last row of each group. */
  function Bounds(groups: seq<seq<int>>): seq<(int, int)>
    requires forall i :: 0 <= i < |groups| ==> groups[i] != []
  {
    seq(|groups|, i requires 0 <= i < |groups| => (groups[i][0], Last(groups[i])))
  }

  lemma GroupsAreNotEmpty(sorted: seq<int>)
    requires Ascending(sorted)
    ensures forall i :: 0 <= i < |Groups(sorted)| ==> Groups(sorted)[i] != []
  {
    GroupsAreMaximalRuns(sorted);
    forall i | 0 <= i < |Groups(sorted)| ensures Groups(sorted)[i] != [] {
      assert Run(Groups(sorted)[i]);
    }
  }

  // ---- writing ----

  /** One column of a sheet: what each row holds. */
  type Column = map<int, string>

  /** Put `values` into the rows from `start` down. */
  function Put(column: Column, start: int, values: seq<string>): Column {
    if values == [] then column
    else Put(column, start, values[..|values| - 1])[start + |values| - 1 := Last(values)]
  }

  ghost predicate Assigned(rows: seq<int>, assignments: map<int, string>) {
    forall i :: 0 <= i < |rows| ==> rows[i] in assignments
  }

  function ValuesOf(rows: seq<int>, assignments: map<int, string>): seq<string>
    requires Assigned(rows, assignments)
  {
    seq(|rows|, i requires 0 <= i < |rows| => assignments[rows[i]])
  }

  ghost predicate Writable(groups: seq<seq<int>>, assignments: map<int, string>) {
    forall i :: 0 <= i < |groups| ==> Run(groups[i]) && Assigned(groups[i], assignments)
  }

  /** Write the groups one after the other, each as a column from its first row. */
  function PutGroups(column: Column, groups: seq<seq<int>>, assignments: map<int, string>): Column
    requires Writable(groups, assignments)
    decreases |groups|
  {
    if groups == [] then column
    else
      var last := Last(groups);
      assert Run(last) && Assigned(last, assignments);
      Put(PutGroups(column, groups[..|groups| - 1], assignments), last[0], ValuesOf(last, assignments))
  }

  /** The part of the assignments with the given rows. */
  function Only(assignments: map<int, string>, rows: seq<int>): map<int, string> {
    map r | r in assignments && r in rows :: assignments[r]
  }

  lemma OnlyOneMore(assignments: map<int, string>, rows: seq<int>, row: int)
    requires row in assignments
    ensures Only(assignments, rows + [row]) == Only(assignments, rows)[row := assignments[row]]
  {
  }

  lemma ValuesOneMore(rows: seq<int>, row: int, assignments: map<int, string>)
    requires Assigned(rows, assignments) && row in assignments
    ensures Assigned(rows + [row], assignments)
    ensures ValuesOf(rows + [row], assignments) == ValuesOf(rows, assignments) + [assignments[row]]
  {
  }

  lemma PutOneMore(column: Column, start: int, values: seq<string>, value: string)
    ensures Put(column, start, values + [value]) == Put(column, start, values)[start + |values| := value]
  {
    assert (values + [value])[..|values|] == values;
  }

  lemma ValuesHaveLength(rows: seq<int>, assignments: map<int, string>)
    requires Assigned(rows, assignments)
    ensures |ValuesOf(rows, assignments)| == |rows|
  {
  }

  lemma PutNothing(column: Column, start: int, assignments: map<int, string>)
    ensures Put(column, start, ValuesOf([], assignments)) == column + Only(assignments, [])
  {
  }

  lemma UpdateSum(column: Column, more: map<int, string>, row: int, value: string)
    ensures (column + more)[row := value] == column + more[row := value]
  {
  }

  /** Putting consecutive rows as a column writes each of them its own value. */
  lemma {:induction false} RunIsPutPointwise(column: Column, start: int, rows: seq<int>, assignments: map<int, string>)
    requires (forall i :: 0 <= i < |rows| ==> rows[i] == start + i) && Assigned(rows, assignments)
    ensures Put(column, start, ValuesOf(rows, assignments)) == column + Only(assignments, rows)
    decreases |rows|
  {
    hide Put, Only, ValuesOf;
    if rows == [] {
      PutNothing(column, start, assignments);
    } else {
      var n := |rows| - 1;
      var (front, row) := (rows[..n], rows[n]);
      assert rows == front + [row];
      RunIsPutPointwise(column, start, front, assignments);
      ValuesOneMore(front, row, assignments);
      ValuesHaveLength(front, assignments);
      PutOneMore(column, start, ValuesOf(front, assignments), assignments[row]);
      OnlyOneMore(assignments, front, row);
      UpdateSum(column, Only(assignments, front), row, assignments[row]);
    }
  }

  lemma {:induction false} GroupsArePutPointwise(column: Column, groups: seq<seq<int>>, assignments: map<int, string>)
    requires Writable(groups, assignments)
    ensures PutGroups(column, groups, assignments) == column + Only(assignments, Flat(groups))
    decreases |groups|
  {
    hide Put, Only, ValuesOf;
    if groups != [] {
      var front, last := groups[..|groups| - 1], Last(groups);
      GroupsArePutPointwise(column, front, assignments);
      assert Run(last) && Assigned(last, assignments);
      RunIsPutPointwise(PutGroups(column, front, assignments), last[0], last, assignments);
      OnlyAdds(assignments, Flat(front), last);
      SumsAssociate(column, Only(assignments, Flat(front)), Only(assignments, last));
    } else {
      PutNothing(column, 0, assignments);
      NothingPut(column, 0, assignments);
    }
  }

  lemma NothingPut(column: Column, start: int, assignments: map<int, string>)
    ensures Put(column, start, ValuesOf([], assignments)) == column
  {
  }

  lemma SumsAssociate(a: map<int, string>, b: map<int, string>, c: map<int, string>)
    ensures (a + b) + c == a + (b + c)
  {
  }

  lemma OnlyAdds(assignments: map<int, string>, x: seq<int>, y: seq<int>)
    ensures Only(assignments, x + y) == Only(assignments, x) + Only(assignments, y)
  {
  }

  lemma {:induction false} GroupsAreInFlat(groups: seq<seq<int>>, i: nat, r: int)
    requires i < |groups| && r in groups[i]
    ensures r in Flat(groups)
    decreases |groups|
  {
    if i < |groups| - 1 {
      GroupsAreInFlat(groups[..|groups| - 1], i, r);
    }
  }

  /** The groups of the assigned rows can be written. */
  lemma GroupsAreWritable(assignments: map<int, string>)
    ensures Writable(Groups(SortedRows(assignments.Keys)), assignments)
    ensures Flat(Groups(SortedRows(assignments.Keys))) == SortedRows(assignments.Keys)
  {
    hide Groups, Run, Flat;
    var sorted := SortedRows(assignments.Keys);
    var groups := Groups(sorted);
    GroupsAreMaximalRuns(sorted);
    forall i, k | 0 <= i < |groups| && 0 <= k < |groups[i]| ensures groups[i][k] in assignments {
      GroupsAreInFlat(groups, i, groups[i][k]);
    }
  }

  /** Batched writing has the effect of writing every assignment on its own. */
  lemma BatchesWriteEveryAssignment(column: Column, assignments: map<int, string>)
    ensures var groups := Groups(SortedRows(assignments.Keys));
      Writable(groups, assignments) && PutGroups(column, groups, assignments) == column + assignments
  {
    hide Groups, SortedRows, PutGroups, Flat, Writable;
    GroupsAreWritable(assignments);
    var sorted := SortedRows(assignments.Keys);
    GroupsArePutPointwise(column, Groups(sorted), assignments);
    assert Only(assignments, sorted) == assignments;
  }

  // ---- the adapters ----

  /** Group the assigned rows; a row number below one is refused. */
  method ContiguousAssignmentGroups(assignments: map<int, string>) returns (groups: Result<seq<seq<int>>>)
    ensures groups.Err? <==> exists r :: r in assignments && r < 1
    ensures groups.Err? ==> groups.error == Invalid
    ensures groups.Ok? ==> groups.value == Groups(SortedRows(assignments.Keys))
  {
    hide Groups;
    var sorted := SortedRows(assignments.Keys);
    NoGroups();
    var built: seq<seq<int>> := [];
    for i := 0 to |sorted|
      invariant built == Groups(sorted[..i])
      invariant forall k :: 0 <= k < i ==> sorted[k] >= 1
      invariant forall k :: 0 <= k < |built| ==> built[k] != []
    {
      var row := sorted[i];
      GroupsOneMore(sorted, i);
      if row < 1 {
        assert row in sorted;
        return Err(Invalid);
      }
      if built == [] || row != Last(Last(built)) + 1 {
        built := built + [[row]];
      } else {
        built := built[..|built| - 1] + [Last(built) + [row]];
      }
    }
    assert sorted[..|sorted|] == sorted;
    forall r | r in assignments ensures r >= 1 {
      assert r in sorted;
    }
    groups := Ok(built);
  }

  lemma NoGroups()
    ensures Groups([]) == []
  {
  }

  lemma GroupsOneMore(sorted: seq<int>, i: nat)
    requires i < |sorted|
    ensures Groups(sorted[..i + 1]) == Extended(Groups(sorted[..i]), sorted[i])
  {
    assert sorted[..i + 1][..i] == sorted[..i];
  }

  /** First and last row of each run of neighbours with equal value minus index. */
  method ContiguousRanges(rows: set<int>) returns (ranges: seq<(int, int)>)
    ensures (forall i :: 0 <= i < |Groups(SortedRows(rows))| ==> Groups(SortedRows(rows))[i] != [])
    ensures ranges == Bounds(Groups(SortedRows(rows)))
  {
    hide KeyGroups, Groups, SortedRows, Ascending, Bounds;
    var sorted := SortedRows(rows);
    KeysGroupTheSameRuns(sorted);
    GroupsAreNotEmpty(sorted);
    NoKeyGroups();
    ranges := [];
    var start := 0;
    while start < |sorted|
      invariant 0 <= start <= |sorted|
      invariant 0 < start < |sorted| ==> sorted[start] - start != sorted[start - 1] - (start - 1)
      invariant AllFilled(KeyGroups(sorted[..start])) && ranges == Bounds(KeyGroups(sorted[..start]))
    {
      var end := EndOfRun(sorted, start);
      BoundsOneMore(KeyGroups(sorted[..start]), sorted[start..end]);
      ranges := ranges + [(sorted[start], sorted[end - 1])];
      start := end;
    }
    assert sorted[..|sorted|] == sorted;
  }

  /** Where the group that starts at `start` ends. */
  method EndOfRun(sorted: seq<int>, start: nat) returns (end: nat)
    requires start < |sorted| && (start > 0 ==> sorted[start] - start != sorted[start - 1] - (start - 1))
    ensures start < end <= |sorted|
    ensures end < |sorted| ==> sorted[end] - end != sorted[end - 1] - (end - 1)
    ensures KeyGroups(sorted[..end]) == KeyGroups(sorted[..start]) + [sorted[start..end]]
  {
    hide KeyGroups;
    end := start + 1;
    KeyGroupStarts(sorted, start);
    while end < |sorted| && sorted[end] - end == sorted[start] - start
      invariant start < end <= |sorted|
      invariant sorted[end - 1] - (end - 1) == sorted[start] - start
      invariant KeyGroups(sorted[..end]) == KeyGroups(sorted[..start]) + [sorted[start..end]]
    {
      KeyGroupGrows(sorted, start, end);
      end := end + 1;
    }
  }

  lemma NoKeyGroups()
    ensures KeyGroups([]) == [] && Bounds([]) == []
  {
  }

  lemma BoundsOneMore(groups: seq<seq<int>>, group: seq<int>)
    requires AllFilled(groups) && group != []
    ensures AllFilled(groups + [group]) && Bounds(groups + [group]) == Bounds(groups) + [(group[0], Last(group))]
  {
  }

  predicate AllFilled(groups: seq<seq<int>>) {
    forall i :: 0 <= i < |groups| ==> groups[i] != []
  }

  lemma KeyGroupStarts(sorted: seq<int>, start: nat)
    requires start < |sorted| && (start > 0 ==> sorted[start] - start != sorted[start - 1] - (start - 1))
    ensures KeyGroups(sorted[..start + 1]) == KeyGroups(sorted[..start]) + [sorted[start..start + 1]]
  {
    assert sorted[..start + 1][..start] == sorted[..start];
    assert sorted[start..start + 1] == [sorted[start]];
  }

  lemma KeyGroupGrows(sorted: seq<int>, start: nat, end: nat)
    requires start < end < |sorted| && sorted[end] - end == sorted[end - 1] - (end - 1)
    requires KeyGroups(sorted[..end]) == KeyGroups(sorted[..start]) + [sorted[start..end]]
    ensures KeyGroups(sorted[..end + 1]) == KeyGroups(sorted[..start]) + [sorted[start..end + 1]]
  {
    var groups := KeyGroups(sorted[..end]);
    KeyGroupJoins(sorted, end);
    assert sorted[start..end] + [sorted[end]] == sorted[start..end + 1];
    assert groups[..|groups| - 1] == KeyGroups(sorted[..start]);
  }

  lemma KeyGroupJoins(sorted: seq<int>, end: nat)
    requires 0 < end < |sorted| && sorted[end] - end == sorted[end - 1] - (end - 1) && KeyGroups(sorted[..end]) != []
    ensures var groups := KeyGroups(sorted[..end]);
      KeyGroups(sorted[..end + 1]) == groups[..|groups| - 1] + [Last(groups) + [sorted[end]]]
  {
    assert sorted[..end + 1][..end] == sorted[..end];
  }

  /** One column of the account sheet, written a command at a time. */
  class SheetColumn {
    var cells: Column

    constructor (cells: Column)
      ensures this.cells == cells
    {
      this.cells := cells;
    }

    /** One command: values into consecutive rows. */
    method PutColumn(start: int, values: seq<string>)
      modifies this
      ensures cells == Put(old(cells), start, values)
    {
      for i := 0 to |values|
        invariant cells == Put(old(cells), start, values[..i])
      {
        assert values[..i + 1][..i] == values[..i];
        cells := cells[start + i := values[i]];
      }
      assert values[..|values|] == values;
    }

    /** Write every assignment, a run at a time; refused before anything is written when a row number is below one. */
    method WriteAssignments(assignments: map<int, string>) returns (written: bool)
      modifies this
      ensures written <==> forall r :: r in assignments ==> r >= 1
      ensures cells == if written then old(cells) + assignments else old(cells)
    {
      hide Put, Run, Groups, SortedRows, ValuesOf;
      if assignments == map[] {
        return true;
      }
      var found := ContiguousAssignmentGroups(assignments);
      if found.Err? {
        return false;
      }
      var groups := found.value;
      GroupsAreWritable(assignments);
      BatchesWriteEveryAssignment(cells, assignments);
      for i := 0 to |groups|
        invariant Writable(groups[..i], assignments)
        invariant cells == PutGroups(old(cells), groups[..i], assignments)
      {
        RunsStart(groups, assignments, i);
        PutColumn(groups[i][0], ValuesOf(groups[i], assignments));
        PutGroupsOneMore(old(cells), groups, assignments, i);
      }
      assert groups[..|groups|] == groups;
      written := true;
    }
  }

  lemma RunsStart(groups: seq<seq<int>>, assignments: map<int, string>, i: nat)
    requires Writable(groups, assignments) && i < |groups|
    ensures groups[i] != [] && Assigned(groups[i], assignments)
  {
    assert Run(groups[i]);
  }

  lemma PutGroupsOneMore(column: Column, groups: seq<seq<int>>, assignments: map<int, string>, i: nat)
    requires Writable(groups, assignments) && i < |groups| && groups[i] != [] && Assigned(groups[i], assignments)
    ensures Writable(groups[..i], assignments) && Writable(groups[..i + 1], assignments)
    ensures PutGroups(column, groups[..i + 1], assignments)
      == Put(PutGroups(column, groups[..i], assignments), groups[i][0], ValuesOf(groups[i], assignments))
  {
    assert groups[..i + 1][..i] == groups[..i];
  }
}
