/** Finding a complete block of free accounts: a sliding window over the rows, in table order. */
module AccountAllocation {
  import opened Basics
  import opened Sorting
  import opened AccountSheets

  /** A block's groups in order, each with its number of rows. */
  type Patterns = seq<(string, nat)>

  const IAA_BLOCK: Patterns := [("B1", 3), ("B4", 3), ("B7", 3), ("BX", 1)]
  const IAP_BLOCK: Patterns := [("B1-9.9", 3), ("B2-2.9", 3)]

  function Repeat(group: string, count: nat): seq<string> {
    seq(count, i => group)
  }

  /** The group each row of a block must have. */
  function Groups(patterns: Patterns): seq<string> {
    if patterns == [] then [] else Repeat(patterns[0].0, patterns[0].1) + Groups(patterns[1..])
  }

  predicate Fits(row: AccountRow, group: string, taken: set<string>) {
    row.group == group && row.enabled && row.dramaName == "" && row.cid !in taken
  }

  ghost predicate Matches(block: Sheet, groups: seq<string>, taken: set<string>) {
    |block| == |groups| && forall i :: 0 <= i < |block| ==> Fits(block[i], groups[i], taken)
  }

  ghost predicate MatchesAt(rows: Sheet, start: nat, groups: seq<string>, taken: set<string>) {
    start + |groups| <= |rows| && Matches(rows[start..start + |groups|], groups, taken)
  }

  /** `start` is the first window of `rows` that matches, from `from` on; None when no window does. */
  ghost predicate FirstWindow(rows: Sheet, groups: seq<string>, taken: set<string>, from: nat, start: Option<nat>) {
    match start
    case Some(k) => from <= k && MatchesAt(rows, k, groups, taken) && forall j :: from <= j < k ==>
      !MatchesAt(rows, j, groups, taken)
    case None => forall j :: from <= j ==> !MatchesAt(rows, j, groups, taken)
  }

  ghost function FindStart(rows: Sheet, groups: seq<string>, taken: set<string>, from: nat): (start: Option<nat>)
    ensures FirstWindow(rows, groups, taken, from, start)
    decreases |rows| - from
  {
    if from + |groups| > |rows| then None
    else if MatchesAt(rows, from, groups, taken) then Some(from)
    else FindStart(rows, groups, taken, from + 1)
  }

  /** At most one answer is the first window. */
  lemma FirstWindowIsUnique(rows: Sheet, groups: seq<string>, taken: set<string>, from: nat, x: Option<nat>,
      y: Option<nat>)
    requires FirstWindow(rows, groups, taken, from, x) && FirstWindow(rows, groups, taken, from, y)
    ensures x == y
  {
  }

  /** An allocated block and the row chosen for testing. */
  datatype Block = Block(rows: Sheet, testRow: Option<AccountRow>)

  function Cids(rows: Sheet): set<string> {
    set row | row in rows :: row.cid
  }

  /** The first enabled B4 row not marked as a test account yet. */
  function TestRow(block: Sheet): Option<AccountRow> {
    if block == [] then None
    else if block[0].group == "B4" && block[0].enabled && !block[0].isTest then Some(block[0])
    else TestRow(block[1..])
  }

  ghost function FindBlock(rows: Sheet, groups: seq<string>, taken: set<string>): Option<Block> {
    match FindStart(rows, groups, taken, 0)
    case None => None
    case Some(k) => Some(Block(rows[k..k + |groups|], TestRow(rows[k..k + |groups|])))
  }

  /** The groups an IAP block needs for the paid link types present; 9.9 before 2.9. */
  function IapPatterns(required: set<string>): Patterns {
    (if "9.9" in required then [("B1-9.9", 3)] else []) + (if "2.9" in required then [("B2-2.9", 3)] else [])
  }

  // ---- the service ----

  method MatchesPattern(block: Sheet, patterns: Patterns, taken: set<string>) returns (matches: bool)
    requires |block| == |Groups(patterns)|
    ensures matches == Matches(block, Groups(patterns), taken)
  {
    ghost var groups := Groups(patterns);
    var index := 0;
    for p := 0 to |patterns|
      invariant index <= |block| && groups[index..] == Groups(patterns[p..])
      invariant forall i :: 0 <= i < index ==> Fits(block[i], groups[i], taken)
    {
      var (group, count) := patterns[p];
      ghost var later := Groups(patterns[p + 1..]);
      assert patterns[p..][1..] == patterns[p + 1..];
      for c := 0 to count
        invariant index <= |block| && groups[index..] == Repeat(group, count - c) + later
        invariant forall i :: 0 <= i < index ==> Fits(block[i], groups[i], taken)
      {
        assert Repeat(group, count - c) == [group] + Repeat(group, count - c - 1);
        assert groups[index] == groups[index..][0] == group;
        assert groups[index + 1..] == groups[index..][1..];
        var row := block[index];
        if row.group != group || !row.enabled || row.dramaName != "" || row.cid in taken {
          assert !Fits(block[index], groups[index], taken);
          return false;
        }
        index := index + 1;
      }
      assert Repeat(group, 0) + later == later;
    }
    matches := index == |block|;
  }

  method PickTestRow(block: Sheet) returns (row: Option<AccountRow>)
    ensures row == TestRow(block)
  {
    for i := 0 to |block|
      invariant TestRow(block) == TestRow(block[i..])
    {
      if block[i].group == "B4" && block[i].enabled && !block[i].isTest {
        return Some(block[i]);
      }
    }
    row := None;
  }

  method FindBlockIn(rows: Sheet, patterns: Patterns, taken: set<string>) returns (block: Option<Block>)
    ensures block == FindBlock(rows, Groups(patterns), taken)
  {
    ghost var groups := Groups(patterns);
    var size := BlockSize(patterns);
    var start := 0;
    while start + size <= |rows|
      invariant forall j :: 0 <= j < start ==> !MatchesAt(rows, j, groups, taken)
    {
      var window := rows[start..start + size];
      var matches := MatchesPattern(window, patterns, taken);
      if matches {
        FirstWindowIsUnique(rows, groups, taken, 0, Some(start), FindStart(rows, groups, taken, 0));
        var testRow := PickTestRow(window);
        return Some(Block(window, testRow));
      }
      start := start + 1;
    }
    FirstWindowIsUnique(rows, groups, taken, 0, None, FindStart(rows, groups, taken, 0));
    block := None;
  }

  method BlockSize(patterns: Patterns) returns (size: nat)
    ensures size == |Groups(patterns)|
  {
    size := 0;
    for p := 0 to |patterns|
      invariant |Groups(patterns)| == size + |Groups(patterns[p..])|
    {
      assert patterns[p..][1..] == patterns[p + 1..];
      size := size + patterns[p].1;
    }
  }

  method FindIapBlock(rows: Sheet, taken: set<string>, required: set<string>) returns (block: Option<Block>)
    ensures block == if IapPatterns(required) == [] then None else FindBlock(rows, Groups(IapPatterns(required)), taken)
  {
    var patterns: Patterns := [];
    if "9.9" in required {
      patterns := patterns + [("B1-9.9", 3)];
    }
    if "2.9" in required {
      patterns := patterns + [("B2-2.9", 3)];
    }
    if patterns == [] {
      return None;
    }
    block := FindBlockIn(rows, patterns, taken);
  }

  datatype PlanEntry = PlanEntry(dramaName: string, isTest: bool)

  /** What to write into a block: exactly its rows, the drama name in each, the test mark on the test row. */
  method BuildWritePlan(block: Block, dramaName: string) returns (plan: map<int, PlanEntry>)
    ensures plan.Keys == Numbers(block.rows)
    ensures forall n :: n in plan ==>
      plan[n] == PlanEntry(dramaName, block.testRow.Some? && block.testRow.value.rowNumber == n)
  {
    plan := map[];
    for i := 0 to |block.rows|
      invariant plan.Keys == Numbers(block.rows[..i])
      invariant forall n :: n in plan ==>
        plan[n] == PlanEntry(dramaName, block.testRow.Some? && block.testRow.value.rowNumber == n)
    {
      var row := block.rows[i];
      assert block.rows[..i + 1] == block.rows[..i] + [row];
      assert forall n :: n in Numbers(block.rows[..i + 1]) <==> n in Numbers(block.rows[..i]) || n == row.rowNumber by {
        NumbersAppend(block.rows[..i], row);
      }
      plan := plan[row.rowNumber :=
          PlanEntry(dramaName, block.testRow.Some? && row.rowNumber == block.testRow.value.rowNumber)];
    }
    assert block.rows[..|block.rows|] == block.rows;
  }

  lemma NumbersAppend(rows: Sheet, row: AccountRow)
    ensures Numbers(rows + [row]) == Numbers(rows) + {row.rowNumber}
  {
    var all := rows + [row];
    forall n ensures n in Numbers(all) <==> n in Numbers(rows) + {row.rowNumber} {
      if n in Numbers(rows) {
        var i :| 0 <= i < |rows| && rows[i].rowNumber == n;
        assert all[i].rowNumber == n;
      }
      assert all[|rows|].rowNumber == row.rowNumber;
    }
  }
}
