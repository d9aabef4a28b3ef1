/** What callers of the account assignment rely on: honest previews, untouched neighbours, no CID twice a day. */
module AccountGuarantees {
  import opened Basics
  import opened Sorting
  import opened AccountSheets
  import opened AccountAllocation
  import opened AccountAssignment
  import opened AccountAssignmentProofs

  // ---- a preview predicts the real run ----

  lemma PlanBlockIgnoresDryRun(kind: Kind, rows: Sheet, groups: seq<string>, definition: Patterns,
                               reserved: set<string>, used: set<string>, req: Request, dryRun: bool)
    ensures PlanBlock(kind, rows, groups, definition, reserved, used, req.(dryRun := dryRun))
      == PlanBlock(kind, rows, groups, definition, reserved, used, req)
  {
    hide FindBlock, LatestTemplate, Groups, AccountsOf, Appended, MaxNumber;
  }

  lemma PlanIgnoresDryRun(st: State, req: Request, dryRun: bool)
    ensures MakePlan(st, req.(dryRun := dryRun)) == MakePlan(st, req)
  {
    hide PlanBlock, Groups, Occupied, PaidTypes, Cids;
    var changed := req.(dryRun := dryRun);
    var used := UsedToday(st, req);
    assert UsedToday(st, changed) == used;
    PlanBlockIgnoresDryRun(Iaa, st.sheets.iaa, Groups(IAA_BLOCK), IAA_BLOCK, used + Occupied(st.sheets.iaa), used, req,
        dryRun);
    var first := if Wants(req.links, "IAA") then PlanIaa(st, req) else NoBlock;
    var iaa := if first.Planned? then Some(first.block) else None;
    var taken := if iaa.Some? then Cids(iaa.value.rows) else {};
    var reserved := used + taken + (if Wants(req.links, "IAA") then Occupied(st.sheets.iaa) else {})
        + Occupied(st.sheets.iap);
    PlanBlockIgnoresDryRun(Iap, st.sheets.iap, Groups(IapPatterns(PaidTypes(req.links))), IAP_BLOCK, reserved,
        used + taken, req, dryRun);
    assert PlanIap(st, changed, iaa) == PlanIap(st, req, iaa);
  }

  lemma SoundPlanIsCommitted(st: State, req: Request)
    requires Tidy(st.sheets) && MakePlan(st, req).failure.None?
    ensures var plan := MakePlan(st, req);
      var accounts := AllAccounts(Blocks(plan), req.includeTest);
      var after := AfterAppends(st, plan, false);
      var written := after.(sheets := Applied(after.sheets, plan, req));
      Commit(after, req, Blocks(plan), accounts) ==
        if !Records(st, req) then (written, Outcome(Confirmed, accounts))
        else if Distinct(CidList(accounts)) then
          (written.(uses := Some(st.uses.value + set cid | cid in CidList(accounts) :: (req.day.value, cid))),
              Outcome(Confirmed, accounts))
        else (written, Outcome(PartialWrite, accounts))
  {
    hide MakePlan, PlanSound, Applied, StillAvailable, WriteBlocks, AllAccounts, Blocks, Distinct, CidList;
    var plan := MakePlan(st, req);
    PlansAreSound(st, req);
    SoundPlanIsWritten(st, req, plan);
    PlannedCidsAreUnused(st, req, plan);
    assert st.uses.Some? && req.day.Some? ==> UsedOn(st.uses.value, req.day.value) <= UsedToday(st, req);
  }

  /**
   * A preview changes nothing. Where it fails, the real run fails the same way; where it succeeds, the real run
   * picks the same accounts and confirms them, unless uses are recorded and the plan names one CID twice.
   */
  lemma PreviewPredictsRealRun(st: State, req: Request)
    requires Tidy(st.sheets)
    ensures var (same, preview) := Assign(st, req.(dryRun := true));
      var outcome := Assign(st, req.(dryRun := false)).1;
      && same == st
      && outcome.accounts == preview.accounts
      && preview.status in {DryRun, Status.Conflict, Unavailable}
      && outcome.status ==
        if preview.status != DryRun then preview.status
        else if Records(st, req) && !Distinct(CidList(preview.accounts)) then PartialWrite
        else Confirmed
  {
    hide MakePlan, Commit, Distinct, CidList, AllAccounts, Blocks;
    PlanIgnoresDryRun(st, req, true);
    PlanIgnoresDryRun(st, req, false);
    FailuresAreRefusals(st, req);
    var actual := req.(dryRun := false);
    if MakePlan(st, req).failure.None? {
      SoundPlanIsCommitted(st, actual);
    }
  }

  lemma FailuresAreRefusals(st: State, req: Request)
    ensures var failure := MakePlan(st, req).failure; failure.Some? ==> failure.value in {Status.Conflict, Unavailable}
  {
    hide PlanBlock;
  }

  // ---- rows in use stay as they are ----

  /** The same accounts in the same rows, and every row that held a drama name unchanged. */
  ghost predicate Kept(before: Sheet, after: Sheet) {
    && |after| == |before|
    && (forall i :: 0 <= i < |before| ==>
      after[i] == before[i].(dramaName := after[i].dramaName, isTest := after[i].isTest))
    && (forall i :: 0 <= i < |before| && before[i].dramaName != "" ==> after[i] == before[i])
  }

  /** Row `number` of the sheet the writes started from was free. */
  predicate WasFree(base: Sheet, number: int) {
    var k := LastWith(base, number);
    k.Some? ==> base[k.value].dramaName == ""
  }

  lemma OneWriteKeeps(base: Sheet, rows: Sheet, number: int, k: nat, row: AccountRow)
    requires Kept(base, rows) && WasFree(base, number) && LastWith(rows, number) == Some(k)
    requires row == rows[k].(dramaName := row.dramaName, isTest := row.isTest)
    ensures Kept(base, rows[k := row])
  {
    SameNumbersSameLast(base, rows, number);
  }

  lemma {:induction false} NamesKeep(base: Sheet, rows: Sheet, numbers: seq<int>, name: string)
    requires Kept(base, rows) && forall n :: n in numbers ==> WasFree(base, n)
    ensures Kept(base, WriteNames(rows, numbers, name).0)
    decreases |numbers|
  {
    hide Kept, WasFree, LastWith;
    if numbers != [] && LastWith(rows, numbers[0]).Some? {
      assert numbers[0] in numbers && forall n :: n in numbers[1..] ==> n in numbers;
      var k := LastWith(rows, numbers[0]).value;
      OneWriteKeeps(base, rows, numbers[0], k, rows[k].(dramaName := name));
      NamesKeep(base, rows[k := rows[k].(dramaName := name)], numbers[1..], name);
    }
  }

  ghost predicate BlockWasFree(base: Sheet, block: Block) {
    && (forall i :: 0 <= i < |block.rows| ==> WasFree(base, block.rows[i].rowNumber))
    && (block.testRow.Some? ==> block.testRow.value in block.rows)
  }

  lemma {:induction false} WritingKeeps(base: Sheets, sheets: Sheets, blocks: seq<(Kind, Block)>, req: Request,
      wrote: bool)
    requires Kept(base.iaa, sheets.iaa) && Kept(base.iap, sheets.iap)
    requires forall i :: 0 <= i < |blocks| ==> BlockWasFree(RowsOf(base, blocks[i].0), blocks[i].1)
    ensures var after := WriteBlocks(sheets, blocks, req, wrote).0;
        Kept(base.iaa, after.iaa) && Kept(base.iap, after.iap)
    decreases |blocks|
  {
    hide Kept, WasFree, LastWith, WriteNames, WriteConfirmed;
    if blocks != [] {
      var (kind, block) := blocks[0];
      assert BlockWasFree(RowsOf(base, kind), block);
      var (named, found) := WriteNames(RowsOf(sheets, kind), NumberList(block.rows), req.dramaName);
      assert Kept(RowsOf(base, kind), RowsOf(sheets, kind));
      NamesKeep(RowsOf(base, kind), RowsOf(sheets, kind), NumberList(block.rows), req.dramaName);
      var test := TestNumber(block, req.includeTest);
      if found {
        var (flagged, marked) := if test.Some? then WriteFlag(named, test.value) else (named, true);
        if test.Some? && LastWith(named, test.value).Some? {
          var k := LastWith(named, test.value).value;
          OneWriteKeeps(RowsOf(base, kind), named, test.value, k, named[k].(isTest := true));
        }
        assert Kept(RowsOf(base, kind), flagged);
        var next := WithRows(sheets, kind, flagged);
        WritingKeeps(base, next, blocks[1..], req, true);
      }
    }
  }

  lemma CommitKeeps(st: State, req: Request, blocks: seq<(Kind, Block)>, accounts: seq<Account>)
    requires forall i :: 0 <= i < |blocks| ==> (blocks[i].1.testRow.Some? ==>
      blocks[i].1.testRow.value in blocks[i].1.rows)
    ensures var after := Commit(st, req, blocks, accounts).0.sheets;
      Kept(st.sheets.iaa, after.iaa) && Kept(st.sheets.iap, after.iap)
  {
    hide WriteBlocks, LastWith, CidList, Distinct;
    if forall i :: 0 <= i < |blocks| ==> StillAvailable(blocks[i].1.rows, RowsOf(st.sheets, blocks[i].0)) {
      forall i | 0 <= i < |blocks| ensures BlockWasFree(RowsOf(st.sheets, blocks[i].0), blocks[i].1) {
        assert StillAvailable(blocks[i].1.rows, RowsOf(st.sheets, blocks[i].0));
      }
      WritingKeeps(st.sheets, st.sheets, blocks, req, false);
    }
  }

  ghost predicate Grown(before: Sheet, after: Sheet) {
    |before| <= |after| && Kept(before, after[..|before|])
  }

  lemma KeptAfterAppend(before: Sheet, added: Sheet, after: Sheet)
    requires Kept(before + added, after)
    ensures Grown(before, after)
  {
  }

  /**
   * Whatever the sheets hold and however the run ends: no account moves, and no row that already held a drama name
   * changes. This needs no unique row numbers, because every write was checked against the row it will hit.
   */
  lemma HeldRowsAreKept(st: State, req: Request)
    ensures var after := Assign(st, req).0.sheets;
      Grown(st.sheets.iaa, after.iaa) && Grown(st.sheets.iap, after.iap)
  {
    hide MakePlan, Commit, Kept, Accepts, AllAccounts;
    var plan := MakePlan(st, req);
    var after := AfterAppends(st, plan, req.dryRun);
    PlansAreSound(st, req);
    CommitKeeps(after, req, Blocks(plan), AllAccounts(Blocks(plan), req.includeTest));
    KeptItself(after.sheets.iaa);
    KeptItself(after.sheets.iap);
    var final := Assign(st, req).0.sheets;
    assert Kept(after.sheets.iaa, final.iaa) && Kept(after.sheets.iap, final.iap);
    assert st.sheets.iaa + [] == st.sheets.iaa && st.sheets.iap + [] == st.sheets.iap;
    KeptAfterAppend(st.sheets.iaa, if req.dryRun then [] else plan.iaaAdded, final.iaa);
    KeptAfterAppend(st.sheets.iap, if req.dryRun then [] else plan.iapAdded, final.iap);
  }

  lemma KeptItself(rows: Sheet)
    ensures Kept(rows, rows)
  {
  }

  // ---- what a run leaves behind, with unique row numbers ----

  function NumbersOf(accounts: seq<Account>, kind: Kind): set<int> {
    set a | a in accounts && a.kind == kind :: a.rowNumber
  }

  /** `after` holds `name` in the numbered rows; every other row is as before, or an appended free row. */
  ghost predicate NamedExactly(before: Sheet, after: Sheet, numbers: set<int>, name: string) {
    && |before| <= |after|
    && (forall i :: 0 <= i < |after| && after[i].rowNumber in numbers ==> after[i].dramaName == name)
    && (forall i :: 0 <= i < |before| && after[i].rowNumber !in numbers ==> after[i] == before[i])
    && (forall i :: |before| <= i < |after| && after[i].rowNumber !in numbers ==>
      after[i].dramaName == "" && !after[i].isTest)
  }

  lemma NumbersOfBlock(kind: Kind, block: Block, includeTest: bool, other: Kind)
    ensures NumbersOf(AccountsOf(kind, block, includeTest), other) == if other == kind then Numbers(block.rows) else {}
  {
    var accounts := AccountsOf(kind, block, includeTest);
    forall n ensures n in NumbersOf(accounts, kind) <==> n in Numbers(block.rows) {
      if n in Numbers(block.rows) {
        var i :| 0 <= i < |block.rows| && block.rows[i].rowNumber == n;
        assert accounts[i] in accounts && accounts[i].rowNumber == n;
      }
    }
  }

  lemma FilledNamesExactly(before: Sheet, added: Sheet, block: Block, req: Request)
    requires block.testRow.Some? ==> block.testRow.value in block.rows
    requires forall i :: 0 <= i < |added| ==> added[i].dramaName == "" && !added[i].isTest
    ensures NamedExactly(before, Filled(before + added, block, req), Numbers(block.rows), req.dramaName)
  {
  }

  predicate Blank(rows: Sheet) {
    forall i :: 0 <= i < |rows| ==> rows[i].dramaName == "" && !rows[i].isTest
  }

  lemma AddedRowsAreBlank(st: State, req: Request)
    ensures Blank(MakePlan(st, req).iaaAdded) && Blank(MakePlan(st, req).iapAdded)
  {
    hide FindBlock, LatestTemplate, Groups, MaxNumber, AccountsOf, UsedToday, Occupied, PaidTypes, Cids;
  }

  /** What a run leaves: the sheets name exactly the accounts it wrote, and a confirmed, recorded run adds its CIDs. */
  ghost predicate LeavesItsPlan(st: State, req: Request, after: State, outcome: Outcome) {
    var written := outcome.status in {Confirmed, PartialWrite};
    && NamedExactly(st.sheets.iaa, after.sheets.iaa, if written then NumbersOf(outcome.accounts, Iaa)
        else {}, req.dramaName)
    && NamedExactly(st.sheets.iap, after.sheets.iap, if written then NumbersOf(outcome.accounts, Iap)
        else {}, req.dramaName)
    && after.uses ==
      if outcome.status == Confirmed && Records(st, req)
      then Some(st.uses.value + set cid | cid in CidList(outcome.accounts) :: (req.day.value, cid))
      else st.uses
  }

  lemma NothingWritten(before: Sheet, added: Sheet, name: string)
    requires Blank(added)
    ensures NamedExactly(before, before + added, {}, name) && NamedExactly(before, before, {}, name)
  {
  }

  lemma PlanNumbers(plan: Plan, includeTest: bool)
    ensures var accounts := AllAccounts(Blocks(plan), includeTest);
      && NumbersOf(accounts, Iaa) == (if plan.iaa.Some? then Numbers(plan.iaa.value.rows) else {})
      && NumbersOf(accounts, Iap) == (if plan.iap.Some? then Numbers(plan.iap.value.rows) else {})
  {
    hide AccountsOf, Numbers;
    AccountsOfPlan(plan, includeTest);
    var iaa := if plan.iaa.Some? then AccountsOf(Iaa, plan.iaa.value, includeTest) else [];
    var iap := if plan.iap.Some? then AccountsOf(Iap, plan.iap.value, includeTest) else [];
    if plan.iaa.Some? {
      NumbersOfBlock(Iaa, plan.iaa.value, includeTest, Iaa);
      NumbersOfBlock(Iaa, plan.iaa.value, includeTest, Iap);
    }
    if plan.iap.Some? {
      NumbersOfBlock(Iap, plan.iap.value, includeTest, Iaa);
      NumbersOfBlock(Iap, plan.iap.value, includeTest, Iap);
    }
    assert NumbersOf(iaa + iap, Iaa) == NumbersOf(iaa, Iaa) + NumbersOf(iap, Iaa);
    assert NumbersOf(iaa + iap, Iap) == NumbersOf(iaa, Iap) + NumbersOf(iap, Iap);
  }

  lemma AppliedNamesExactly(st: State, req: Request, plan: Plan)
    requires PlanSound(st, req, plan) && Blank(plan.iaaAdded) && Blank(plan.iapAdded)
    ensures var after := Applied(AfterAppends(st, plan, false).sheets, plan, req);
      var accounts := AllAccounts(Blocks(plan), req.includeTest);
      && NamedExactly(st.sheets.iaa, after.iaa, NumbersOf(accounts, Iaa), req.dramaName)
      && NamedExactly(st.sheets.iap, after.iap, NumbersOf(accounts, Iap), req.dramaName)
  {
    hide NamedExactly, Filled, NumbersUnique, AllAccounts, Blocks, NumbersOf;
    PlanNumbers(plan, req.includeTest);
    NothingWritten(st.sheets.iaa, plan.iaaAdded, req.dramaName);
    NothingWritten(st.sheets.iap, plan.iapAdded, req.dramaName);
    if plan.iaa.Some? {
      FilledNamesExactly(st.sheets.iaa, plan.iaaAdded, plan.iaa.value, req);
    }
    if plan.iap.Some? {
      FilledNamesExactly(st.sheets.iap, plan.iapAdded, plan.iap.value, req);
    }
  }

  /** With unique row numbers, a run leaves exactly its plan behind, and row numbers stay unique. */
  lemma RunsLeaveTheirPlan(st: State, req: Request)
    requires Tidy(st.sheets)
    ensures LeavesItsPlan(st, req, Assign(st, req).0, Assign(st, req).1)
    ensures Tidy(Assign(st, req).0.sheets)
  {
    hide MakePlan, Commit, NamedExactly, Filled, NumbersUnique, AllAccounts, Blocks, NumbersOf, CidList, Distinct,
        Accepts, Blank, Sound;
    var plan := MakePlan(st, req);
    var after := AfterAppends(st, plan, req.dryRun);
    AddedRowsAreBlank(st, req);
    PlansAreSound(st, req);
    FailuresAreRefusals(st, req);
    NothingWritten(st.sheets.iaa, plan.iaaAdded, req.dramaName);
    NothingWritten(st.sheets.iap, plan.iapAdded, req.dramaName);
    if plan.failure.None? && !req.dryRun {
      SoundPlanIsCommitted(st, req);
      AppliedNamesExactly(st, req, plan);
      AppliedIsTidy(st, req, plan);
    }
  }

  lemma AppliedIsTidy(st: State, req: Request, plan: Plan)
    requires Tidy(st.sheets) && PlanSound(st, req, plan)
    ensures Tidy(AfterAppends(st, plan, false).sheets)
    ensures Tidy(Applied(AfterAppends(st, plan, false).sheets, plan, req))
  {
    hide Sound, NumbersUnique, Filled;
    var sheets := AfterAppends(st, plan, false).sheets;
    var used := UsedToday(st, req);
    if plan.iaa.Some? {
      FilledIsConfirmed(sheets.iaa, plan.iaa.value, used, req);
    }
    if plan.iap.Some? {
      FilledIsConfirmed(sheets.iap, plan.iap.value, used + if plan.iaa.Some? then Cids(plan.iaa.value.rows)
          else {}, req);
    }
  }

  // ---- a CID is confirmed at most once a day ----

  /** One call of the service, with the sheets as they happen to be at that moment. */
  datatype Call = Call(sheets: Sheets, request: Request)

  /** The recorded uses before call `n` of a run. */
  ghost function UsesBefore(uses: Uses, calls: seq<Call>, n: nat): Uses
    requires n <= |calls|
  {
    if n == 0 then uses
    else
      var before := UsesBefore(uses, calls, n - 1);
      Assign(State(calls[n - 1].sheets, Some(before)), calls[n - 1].request).0.uses.value
  }

  ghost function OutcomeOf(uses: Uses, calls: seq<Call>, n: nat): Outcome
    requires n < |calls|
  {
    Assign(State(calls[n].sheets, Some(UsesBefore(uses, calls, n))), calls[n].request).1
  }

  lemma UsedAfterRecording(uses: Uses, day: int, cids: seq<string>)
    ensures UsedOn(uses + set cid | cid in cids :: (day, cid), day) == UsedOn(uses, day) + Members(cids)
  {
    var added := set cid | cid in cids :: (day, cid);
    forall c ensures c in UsedOn(uses + added, day) <==> c in UsedOn(uses, day) + Members(cids) {
      assert c in cids <==> (day, c) in added;
      assert c in UsedOn(uses, day) <==> (day, c) in uses;
    }
  }

  /** A confirmed and recorded run names distinct CIDs, none used that day before, and adds them all. */
  lemma ConfirmedCidsAreFresh(st: State, req: Request)
    requires Records(st, req)
    ensures var (after, outcome) := Assign(st, req);
      outcome.status == Confirmed ==>
      && after.uses.Some?
      && Distinct(CidList(outcome.accounts))
      && Members(CidList(outcome.accounts)) * UsedOn(st.uses.value, req.day.value) == {}
      && UsedOn(after.uses.value, req.day.value)
          == UsedOn(st.uses.value, req.day.value) + Members(CidList(outcome.accounts))
  {
    hide MakePlan, WriteBlocks, StillAvailable, AllAccounts, Blocks, Distinct, CidList, Accepts, UsedOn;
    FailuresAreRefusals(st, req);
    assert st.uses.Some? && req.day.Some?;
    UsedAfterRecording(st.uses.value, req.day.value, CidList(Assign(st, req).1.accounts));
  }

  lemma UsesOnlyGrow(st: State, req: Request)
    requires st.uses.Some?
    ensures var after := Assign(st, req).0; after.uses.Some? && st.uses.value <= after.uses.value
  {
    hide MakePlan, WriteBlocks, StillAvailable, AllAccounts, Blocks, Distinct, CidList, Accepts;
  }

  lemma {:induction false} UsesGrowOverRuns(uses: Uses, calls: seq<Call>, i: nat, j: nat)
    requires i <= j <= |calls|
    ensures UsesBefore(uses, calls, i) <= UsesBefore(uses, calls, j)
    decreases j
  {
    hide Assign;
    if i < j {
      UsesGrowOverRuns(uses, calls, i, j - 1);
      UsesOnlyGrow(State(calls[j - 1].sheets, Some(UsesBefore(uses, calls, j - 1))), calls[j - 1].request);
    }
  }

  ghost predicate ConfirmedOn(uses: Uses, calls: seq<Call>, n: nat, day: int) {
    && n < |calls|
    && calls[n].request.taskId.Some? && calls[n].request.day == Some(day)
    && OutcomeOf(uses, calls, n).status == Confirmed
  }

  /**
   * Over any run of calls, whatever happens to the sheets in between: two confirmed assignments of one day share no
   * CID, and neither names a CID twice.
   */
  lemma ConfirmationsOfADayAreDisjoint(uses: Uses, calls: seq<Call>, i: nat, j: nat, day: int)
    requires i < j < |calls|
    ensures ConfirmedOn(uses, calls, i, day) && ConfirmedOn(uses, calls, j, day) ==>
      Distinct(CidList(OutcomeOf(uses, calls, i).accounts) + CidList(OutcomeOf(uses, calls, j).accounts))
  {
    if ConfirmedOn(uses, calls, i, day) && ConfirmedOn(uses, calls, j, day) {
      TwoConfirmationsAreDisjoint(uses, calls, i, j, day);
    }
  }

  lemma TwoConfirmationsAreDisjoint(uses: Uses, calls: seq<Call>, i: nat, j: nat, day: int)
    requires i < j && ConfirmedOn(uses, calls, i, day) && ConfirmedOn(uses, calls, j, day)
    ensures Distinct(CidList(OutcomeOf(uses, calls, i).accounts) + CidList(OutcomeOf(uses, calls, j).accounts))
  {
    hide Assign, CidList;
    var first := State(calls[i].sheets, Some(UsesBefore(uses, calls, i)));
    var second := State(calls[j].sheets, Some(UsesBefore(uses, calls, j)));
    ConfirmedCidsAreFresh(first, calls[i].request);
    ConfirmedCidsAreFresh(second, calls[j].request);
    UsesGrowOverRuns(uses, calls, i + 1, j);
    var earlier, later := CidList(OutcomeOf(uses, calls, i).accounts), CidList(OutcomeOf(uses, calls, j).accounts);
    assert Members(earlier) <= UsedOn(UsesBefore(uses, calls, i + 1), day);
    assert UsedOn(UsesBefore(uses, calls, i + 1), day) <= UsedOn(UsesBefore(uses, calls, j), day);
    assert Members(earlier) * Members(later) == {};
    forall a, b | 0 <= a < |earlier| && 0 <= b < |later| ensures earlier[a] != later[b] {
      assert earlier[a] in Members(earlier) && later[b] in Members(later);
      assert earlier[a] !in Members(earlier) * Members(later);
    }
  }
}
