/** What an assignment keeps, what a rehearsal predicts, and what a run of assignments never does. */
module AccountAssignmentProofs {
  import opened Basics
  import opened Sorting
  import opened AccountSheets
  import opened AccountAllocation
  import opened AccountAssignment

  // ---- planned blocks ----

  predicate Free(row: AccountRow, used: set<string>) {
    row.enabled && row.dramaName == "" && row.cid !in used
  }

  /** A block a plan may use: free rows of the sheet, none of its CIDs used. */
  ghost predicate Sound(rows: Sheet, block: Block, used: set<string>) {
    && (forall i :: 0 <= i < |block.rows| ==> block.rows[i] in rows && Free(block.rows[i], used))
    && (block.testRow.Some? ==> block.testRow.value in block.rows)
  }

  lemma {:induction false} TestRowIsInBlock(block: Sheet)
    ensures TestRow(block).Some? ==> TestRow(block).value in block
  {
    if block != [] {
      TestRowIsInBlock(block[1..]);
    }
  }

  lemma FoundBlockIsSound(rows: Sheet, groups: seq<string>, taken: set<string>, used: set<string>)
    requires used <= taken && FindBlock(rows, groups, taken).Some?
    ensures Sound(rows, FindBlock(rows, groups, taken).value, used)
  {
    var k := FindStart(rows, groups, taken, 0).value;
    var block := rows[k..k + |groups|];
    TestRowIsInBlock(block);
    assert forall i :: 0 <= i < |block| ==> Fits(block[i], groups[i], taken);
  }

  lemma SoundInLongerSheet(rows: Sheet, added: Sheet, block: Block, used: set<string>)
    ensures Sound(rows, block, used) ==> Sound(rows + added, block, used)
    ensures Sound(added, block, used) ==> Sound(rows + added, block, used)
  {
  }

  lemma PlannedBlockIsSound(kind: Kind, rows: Sheet, groups: seq<string>, definition: Patterns,
                            reserved: set<string>, used: set<string>, req: Request)
    requires used <= reserved
    ensures var planned := PlanBlock(kind, rows, groups, definition, reserved, used, req);
      planned.Planned? ==>
        && Sound(rows + planned.added, planned.block, used)
        && (NumbersUnique(rows) ==> NumbersUnique(rows + planned.added))
  {
    hide Sound, Groups, FindBlock, LatestTemplate, AccountsOf, NumbersUnique, Appended;
    assert rows + [] == rows;
    var planned := PlanBlock(kind, rows, groups, definition, reserved, used, req);
    if planned.Planned? {
      if FindBlock(rows, groups, reserved).Some? {
        FoundBlockIsSound(rows, groups, reserved, used);
      } else {
        FoundBlockIsSound(planned.added, groups, used, used);
        SoundInLongerSheet(rows, planned.added, planned.block, used);
        if NumbersUnique(rows) {
          AppendKeepsNumbersUnique(rows,
              LatestTemplate(rows, Groups(definition), used, |rows| - |Groups(definition)|).value);
        }
      }
    }
  }

  /** Both blocks of a plan are sound in the sheets a real run has appended to, and share no CID. */
  ghost predicate PlanSound(st: State, req: Request, plan: Plan) {
    var after := AfterAppends(st, plan, false).sheets;
    var used := UsedToday(st, req);
    && (plan.iaa.Some? ==> Sound(after.iaa, plan.iaa.value, used))
    && (plan.iap.Some? ==>
        Sound(after.iap, plan.iap.value, used + if plan.iaa.Some? then Cids(plan.iaa.value.rows) else {}))
    && (NumbersUnique(st.sheets.iaa) ==> NumbersUnique(after.iaa))
    && (NumbersUnique(st.sheets.iap) ==> NumbersUnique(after.iap))
  }

  lemma PlansAreSound(st: State, req: Request)
    ensures PlanSound(st, req, MakePlan(st, req))
  {
    hide PlanBlock, Sound, Groups, NumbersUnique;
    var used := UsedToday(st, req);
    PlannedBlockIsSound(Iaa, st.sheets.iaa, Groups(IAA_BLOCK), IAA_BLOCK, used + Occupied(st.sheets.iaa), used, req);
    var plan := MakePlan(st, req);
    var taken := if plan.iaa.Some? then Cids(plan.iaa.value.rows) else {};
    var reserved := used + taken + (if Wants(req.links, "IAA") then Occupied(st.sheets.iaa) else {})
        + Occupied(st.sheets.iap);
    PlannedBlockIsSound(Iap, st.sheets.iap, Groups(IapPatterns(PaidTypes(req.links))), IAP_BLOCK, reserved,
        used + taken, req);
    assert st.sheets.iaa + [] == st.sheets.iaa && st.sheets.iap + [] == st.sheets.iap;
  }

  // ---- writing a sound block ----

  /** What a written block leaves in its sheet. */
  function Filled(rows: Sheet, block: Block, req: Request): Sheet {
    var named := Named(rows, Numbers(block.rows), req.dramaName);
    var test := TestNumber(block, req.includeTest);
    if test.Some? then Flagged(named, test.value) else named
  }

  lemma RowIsLastOfItsNumber(rows: Sheet, row: AccountRow)
    requires NumbersUnique(rows) && row in rows
    ensures LastWith(rows, row.rowNumber).Some? && rows[LastWith(rows, row.rowNumber).value] == row
  {
    var i :| 0 <= i < |rows| && rows[i] == row;
    var k := LastWith(rows, row.rowNumber);
    assert k.Some? && k.value == i;
  }

  lemma SoundBlockIsAvailable(rows: Sheet, block: Block, used: set<string>)
    requires NumbersUnique(rows) && Sound(rows, block, used)
    ensures StillAvailable(block.rows, rows)
  {
    hide NumbersUnique, LastWith;
    forall i | 0 <= i < |block.rows| ensures RowStillAvailable(block.rows[i], rows) {
      RowIsLastOfItsNumber(rows, block.rows[i]);
    }
  }

  lemma MembersOfNumberList(rows: Sheet)
    ensures Members(NumberList(rows)) == Numbers(rows)
  {
    forall n ensures n in Members(NumberList(rows)) <==> n in Numbers(rows) {
      if n in NumberList(rows) {
        var i :| 0 <= i < |rows| && NumberList(rows)[i] == n;
        assert rows[i].rowNumber == n;
      }
      if n in Numbers(rows) {
        var i :| 0 <= i < |rows| && rows[i].rowNumber == n;
        assert NumberList(rows)[i] == n;
      }
    }
  }

  lemma SoundBlockIsWritten(rows: Sheet, block: Block, used: set<string>, req: Request)
    requires NumbersUnique(rows) && Sound(rows, block, used)
    ensures var (named, found) := WriteNames(rows, NumberList(block.rows), req.dramaName);
      var test := TestNumber(block, req.includeTest);
      var (flagged, marked) := if test.Some? then WriteFlag(named, test.value) else (named, true);
      && found && marked && flagged == Filled(rows, block, req)
      && WriteConfirmed(block.rows, flagged, req.dramaName, test)
    ensures NumbersUnique(Filled(rows, block, req))
  {
    hide WriteNames, WriteFlag, LastWith;
    MembersOfNumberList(block.rows);
    assert forall n :: n in NumberList(block.rows) ==> n in Members(NumberList(block.rows));
    assert Numbers(block.rows) <= Numbers(rows);
    WriteNamesIsPointwise(rows, NumberList(block.rows), req.dramaName);
    var named := Named(rows, Numbers(block.rows), req.dramaName);
    assert NumbersUnique(named);
    var test := TestNumber(block, req.includeTest);
    if test.Some? {
      assert test.value in Numbers(block.rows);
      var i :| 0 <= i < |rows| && rows[i].rowNumber == test.value;
      assert named[i].rowNumber == test.value;
      WriteFlagIsPointwise(named, test.value);
    }
    FilledIsConfirmed(rows, block, used, req);
  }

  lemma FilledIsConfirmed(rows: Sheet, block: Block, used: set<string>, req: Request)
    requires NumbersUnique(rows) && Sound(rows, block, used)
    ensures NumbersUnique(Filled(rows, block, req))
    ensures WriteConfirmed(block.rows, Filled(rows, block, req), req.dramaName, TestNumber(block, req.includeTest))
  {
    var filled := Filled(rows, block, req);
    assert forall i :: 0 <= i < |rows| ==> filled[i].rowNumber == rows[i].rowNumber;
    forall i | 0 <= i < |block.rows|
      ensures RowWritten(block.rows[i], filled, req.dramaName, TestNumber(block, req.includeTest))
    {
      var k :| 0 <= k < |rows| && rows[k] == block.rows[i];
      assert filled[k].rowNumber == block.rows[i].rowNumber;
      assert LastWith(filled, block.rows[i].rowNumber) == Some(k);
    }
  }

  lemma FirstBlockIsWritten(sheets: Sheets, kind: Kind, block: Block, rest: seq<(Kind, Block)>, used: set<string>,
      req: Request, wrote: bool)
    requires NumbersUnique(RowsOf(sheets, kind)) && Sound(RowsOf(sheets, kind), block, used)
    ensures WriteBlocks(sheets, [(kind, block)] + rest, req, wrote)
      == WriteBlocks(WithRows(sheets, kind, Filled(RowsOf(sheets, kind), block, req)), rest, req, true)
  {
    hide NumbersUnique, Sound, Filled, WriteNames, WriteFlag, WriteConfirmed;
    SoundBlockIsWritten(RowsOf(sheets, kind), block, used, req);
    var blocks := [(kind, block)] + rest;
    assert blocks[0] == (kind, block) && blocks[1..] == rest;
    var (named, found) := WriteNames(RowsOf(sheets, kind), NumberList(block.rows), req.dramaName);
    assert forall rows, more :: WithRows(WithRows(sheets, kind, rows), kind, more) == WithRows(sheets, kind, more);
  }

  /** Both sheets after a whole plan has been written. */
  function Applied(sheets: Sheets, plan: Plan, req: Request): Sheets {
    Sheets(
      if plan.iaa.Some? then Filled(sheets.iaa, plan.iaa.value, req) else sheets.iaa,
      if plan.iap.Some? then Filled(sheets.iap, plan.iap.value, req) else sheets.iap)
  }

  ghost predicate Tidy(sheets: Sheets) {
    NumbersUnique(sheets.iaa) && NumbersUnique(sheets.iap)
  }

  lemma SoundPlanIsWritten(st: State, req: Request, plan: Plan)
    requires Tidy(st.sheets) && PlanSound(st, req, plan)
    ensures var sheets := AfterAppends(st, plan, false).sheets;
      && (forall i :: 0 <= i < |Blocks(plan)| ==>
        StillAvailable(Blocks(plan)[i].1.rows, RowsOf(sheets, Blocks(plan)[i].0)))
      && WriteBlocks(sheets, Blocks(plan), req, false) == (Applied(sheets, plan, req), Written)
  {
    hide NumbersUnique, Sound, Filled, StillAvailable;
    var sheets := AfterAppends(st, plan, false).sheets;
    var used := UsedToday(st, req);
    var more := used + if plan.iaa.Some? then Cids(plan.iaa.value.rows) else {};
    var blocks := Blocks(plan);
    var paid := if plan.iap.Some? then [(Iap, plan.iap.value)] else [];
    var first := if plan.iaa.Some? then Filled(sheets.iaa, plan.iaa.value, req) else sheets.iaa;
    if plan.iaa.Some? {
      SoundBlockIsAvailable(sheets.iaa, plan.iaa.value, used);
      FirstBlockIsWritten(sheets, Iaa, plan.iaa.value, paid, used, req, false);
      assert blocks == [(Iaa, plan.iaa.value)] + paid;
    } else {
      assert blocks == paid;
    }
    var between := Sheets(first, sheets.iap);
    assert WriteBlocks(sheets, blocks, req, false) == WriteBlocks(between, paid, req, plan.iaa.Some?);
    if plan.iap.Some? {
      SoundBlockIsAvailable(sheets.iap, plan.iap.value, more);
      FirstBlockIsWritten(between, Iap, plan.iap.value, [], more, req, plan.iaa.Some?);
      assert paid == [(Iap, plan.iap.value)] + [];
    }
  }

  // ---- the recorded CIDs ----

  lemma CidsOfAccounts(kind: Kind, block: Block, includeTest: bool)
    ensures Members(CidList(AccountsOf(kind, block, includeTest))) == Cids(block.rows)
  {
    var cids := CidList(AccountsOf(kind, block, includeTest));
    forall c ensures c in cids <==> c in Cids(block.rows) {
      if c in cids {
        var i :| 0 <= i < |cids| && cids[i] == c;
        assert block.rows[i] in block.rows;
      }
      if c in Cids(block.rows) {
        var i :| 0 <= i < |block.rows| && block.rows[i].cid == c;
        assert cids[i] == c;
      }
    }
  }

  lemma CidListAppend(a: seq<Account>, b: seq<Account>)
    ensures CidList(a + b) == CidList(a) + CidList(b)
    ensures Members(CidList(a + b)) == Members(CidList(a)) + Members(CidList(b))
  {
    assert CidList(a + b) == CidList(a) + CidList(b);
  }

  lemma AccountsOfPlan(plan: Plan, includeTest: bool)
    ensures AllAccounts(Blocks(plan), includeTest)
      == (if plan.iaa.Some? then AccountsOf(Iaa, plan.iaa.value, includeTest) else [])
       + (if plan.iap.Some? then AccountsOf(Iap, plan.iap.value, includeTest) else [])
  {
    hide AccountsOf;
    var blocks := Blocks(plan);
    var paid := if plan.iap.Some? then [(Iap, plan.iap.value)] else [];
    var accounts := if plan.iap.Some? then AccountsOf(Iap, plan.iap.value, includeTest) else [];
    assert AllAccounts(paid, includeTest) == accounts + [];
    assert accounts + [] == accounts && [] + accounts == accounts;
    if plan.iaa.Some? {
      assert blocks[0] == (Iaa, plan.iaa.value) && blocks[1..] == paid;
    } else {
      assert blocks == paid;
    }
  }

  /** A plan's CIDs are those of its blocks, and none is in use. */
  lemma PlannedCidsAreUnused(st: State, req: Request, plan: Plan)
    requires PlanSound(st, req, plan)
    ensures Members(CidList(AllAccounts(Blocks(plan), req.includeTest))) * UsedToday(st, req) == {}
  {
    hide NumbersUnique, AccountsOf;
    var iaa := if plan.iaa.Some? then AccountsOf(Iaa, plan.iaa.value, req.includeTest) else [];
    var iap := if plan.iap.Some? then AccountsOf(Iap, plan.iap.value, req.includeTest) else [];
    AccountsOfPlan(plan, req.includeTest);
    CidListAppend(iaa, iap);
    if plan.iaa.Some? {
      CidsOfAccounts(Iaa, plan.iaa.value, req.includeTest);
    }
    if plan.iap.Some? {
      CidsOfAccounts(Iap, plan.iap.value, req.includeTest);
    }
    assert CidList([]) == [];
  }
}
