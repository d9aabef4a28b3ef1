/** The accounts an assignment names, row by row, and the marks a run leaves on them. */
module AccountResults {
  import opened Basics
  import opened Sorting
  import opened AccountSheets
  import opened AccountAllocation
  import opened AccountAssignment
  import opened AccountAssignmentProofs
  import opened AccountGuarantees
  import AccountValidation
  import AssignmentPlans
  import PlanGuarantees

  // ---- where an account comes from ----

  /** Not held by the caller, and not recorded for the day. */
  predicate UnusedToday(st: State, req: Request, cid: string) {
    && cid !in req.heldCids
    && (st.uses.Some? && req.day.Some? ==> (req.day.value, cid) !in st.uses.value)
  }

  /** The row is in the sheet, or it is a blank copy of one below every row of the sheet. */
  ghost predicate InSheetOrCopied(row: AccountRow, sheet: Sheet) {
    || row in sheet
    || (!row.isTest && IsBelow(row, sheet) && exists i :: 0 <= i < |sheet| && CopyOf(row, sheet[i]))
  }

  predicate IsBelow(row: AccountRow, sheet: Sheet) {
    forall k :: 0 <= k < |sheet| ==> sheet[k].rowNumber < row.rowNumber
  }

  predicate CopyOf(row: AccountRow, source: AccountRow) {
    row == source.(rowNumber := row.rowNumber, isTest := false, dramaName := "")
  }

  /** The account stands in the row: a free, enabled one whose CID is unused today. */
  ghost predicate StandsIn(st: State, req: Request, account: Account, row: AccountRow) {
    && account.rowNumber == row.rowNumber && account.cid == row.cid && account.role == row.group
    && row.enabled && row.dramaName == "" && UnusedToday(st, req, row.cid)
    && InSheetOrCopied(row, if account.kind == Iaa then st.sheets.iaa else st.sheets.iap)
  }

  /** The first B4 row that is not a test account yet. */
  predicate FirstUntestedB4(rows: Sheet, k: nat)
    requires k < |rows|
  {
    && rows[k].group == "B4" && !rows[k].isTest
    && forall j :: 0 <= j < k ==> rows[j].group != "B4" || rows[j].isTest
  }

  /** The accounts stand in these rows, IAA before IAP; at most one more of them is a test account than of the rows. */
  ghost predicate StandIn(st: State, req: Request, accounts: seq<Account>, rows: Sheet) {
    && |accounts| == |rows|
    && (forall k :: 0 <= k < |rows| ==> StandsIn(st, req, accounts[k], rows[k]))
    && (forall k :: 0 <= k < |rows| ==>
      (accounts[k].isTest <==> rows[k].isTest || (req.includeTest && FirstUntestedB4(rows, k))))
    && (forall j, k :: 0 <= j < k < |rows| ==> accounts[k].kind == Iaa ==> accounts[j].kind == Iaa)
  }

  // ---- blocks ----

  lemma AddedAreCopies(kind: Kind, rows: Sheet, groups: seq<string>, definition: Patterns,
                       reserved: set<string>, used: set<string>, req: Request)
    ensures var planned := PlanBlock(kind, rows, groups, definition, reserved, used, req);
      planned.Planned? ==> forall r :: r in planned.added ==> InSheetOrCopied(r, rows)
  {
    hide FindBlock, Groups, AccountsOf, CopyableAt;
    var size := |Groups(definition)|;
    if FindBlock(rows, groups, reserved).None? && LatestTemplate(rows, Groups(definition), used, |rows| - size).Some? {
      var template := LatestTemplate(rows, Groups(definition), used, |rows| - size).value;
      TemplateIsInSheet(rows, Groups(definition), used, |rows| - size);
      CopiesOfTemplate(rows, template);
    }
  }

  lemma TemplateIsInSheet(rows: Sheet, groups: seq<string>, used: set<string>, start: int)
    requires LatestTemplate(rows, groups, used, start).Some?
    ensures forall r :: r in LatestTemplate(rows, groups, used, start).value ==> r in rows
  {
    hide LatestTemplate;
    var template := LatestTemplate(rows, groups, used, start).value;
    var k :| 0 <= k <= start && CopyableAt(rows, k, groups, used) && template == rows[k..k + |groups|];
  }

  lemma CopiesOfTemplate(rows: Sheet, template: Sheet)
    requires forall r :: r in template ==> r in rows
    ensures forall r :: r in Appended(MaxNumber(rows), template) ==> InSheetOrCopied(r, rows)
  {
    var last := MaxNumber(rows);
    var added := Appended(last, template);
    forall i | 0 <= i < |added| ensures InSheetOrCopied(added[i], rows) {
      assert template[i] in rows;
      var k :| 0 <= k < |rows| && rows[k] == template[i];
      assert CopyOf(added[i], rows[k]);
    }
  }

  lemma PlansAddCopies(st: State, req: Request)
    ensures forall r :: r in MakePlan(st, req).iaaAdded ==> InSheetOrCopied(r, st.sheets.iaa)
    ensures forall r :: r in MakePlan(st, req).iapAdded ==> InSheetOrCopied(r, st.sheets.iap)
  {
    hide PlanBlock, Groups, Occupied, InSheetOrCopied;
    var used := UsedToday(st, req);
    AddedAreCopies(Iaa, st.sheets.iaa, Groups(IAA_BLOCK), IAA_BLOCK, used + Occupied(st.sheets.iaa), used, req);
    var plan := MakePlan(st, req);
    var taken := if plan.iaa.Some? then Cids(plan.iaa.value.rows) else {};
    var reserved := used + taken + (if Wants(req.links, "IAA") then Occupied(st.sheets.iaa) else {})
        + Occupied(st.sheets.iap);
    AddedAreCopies(
      Iap, st.sheets.iap, Groups(IapPatterns(PaidTypes(req.links))), IAP_BLOCK, reserved, used + taken, req);
  }

  lemma {:induction false} TestRowIsFirst(rows: Sheet)
    requires forall i :: 0 <= i < |rows| ==> rows[i].enabled
    ensures match TestRow(rows)
      case None => forall k :: 0 <= k < |rows| ==> !FirstUntestedB4(rows, k)
      case Some(row) => exists k :: 0 <= k < |rows| && rows[k] == row && FirstUntestedB4(rows, k)
  {
    if rows != [] {
      var rest := rows[1..];
      assert forall i :: 0 < i < |rows| ==> rows[i] == rest[i - 1];
      TestRowIsFirst(rest);
      if rows[0].group == "B4" && !rows[0].isTest {
        assert FirstUntestedB4(rows, 0);
      } else {
        forall k | 0 <= k < |rest| ensures FirstUntestedB4(rest, k) <==> FirstUntestedB4(rows, k + 1) {
          assert forall j :: 0 <= j < k ==> rest[j] == rows[j + 1];
        }
        if TestRow(rest).Some? {
          var k :| 0 <= k < |rest| && rest[k] == TestRow(rest).value && FirstUntestedB4(rest, k);
          assert rows[k + 1] == rest[k] && FirstUntestedB4(rows, k + 1);
        }
        forall k | 0 <= k < |rows| && FirstUntestedB4(rows, k) ensures k > 0 && FirstUntestedB4(rest, k - 1) {
        }
      }
    }
  }

  /** A planned block: rows with numbers of their own, and the test row found among them. */
  ghost predicate Tested(block: Block) {
    NumbersUnique(block.rows) && block.testRow == TestRow(block.rows)
  }

  lemma FoundIsTested(rows: Sheet, groups: seq<string>, taken: set<string>)
    requires NumbersUnique(rows) && FindBlock(rows, groups, taken).Some?
    ensures Tested(FindBlock(rows, groups, taken).value)
  {
  }

  lemma PlannedIsTested(kind: Kind, rows: Sheet, groups: seq<string>, definition: Patterns,
                        reserved: set<string>, used: set<string>, req: Request)
    requires NumbersUnique(rows)
    ensures var planned := PlanBlock(kind, rows, groups, definition, reserved, used, req);
      planned.Planned? ==> Tested(planned.block)
  {
    hide FindBlock, Groups, AccountsOf, LatestTemplate, Tested;
    var size := |Groups(definition)|;
    if FindBlock(rows, groups, reserved).Some? {
      FoundIsTested(rows, groups, reserved);
    } else if LatestTemplate(rows, Groups(definition), used, |rows| - size).Some? {
      var added := Appended(MaxNumber(rows), LatestTemplate(rows, Groups(definition), used, |rows| - size).value);
      if FindBlock(added, groups, used).Some? {
        FoundIsTested(added, groups, used);
      }
    }
  }

  ghost predicate PlanTested(plan: Plan) {
    (plan.iaa.Some? ==> Tested(plan.iaa.value)) && (plan.iap.Some? ==> Tested(plan.iap.value))
  }

  lemma PlansAreTested(st: State, req: Request)
    requires Tidy(st.sheets)
    ensures PlanTested(MakePlan(st, req))
  {
    hide PlanBlock, Groups, Occupied, NumbersUnique, Tested;
    var used := UsedToday(st, req);
    PlannedIsTested(Iaa, st.sheets.iaa, Groups(IAA_BLOCK), IAA_BLOCK, used + Occupied(st.sheets.iaa), used, req);
    var plan := MakePlan(st, req);
    var taken := if plan.iaa.Some? then Cids(plan.iaa.value.rows) else {};
    var reserved := used + taken + (if Wants(req.links, "IAA") then Occupied(st.sheets.iaa) else {})
        + Occupied(st.sheets.iap);
    PlannedIsTested(
      Iap, st.sheets.iap, Groups(IapPatterns(PaidTypes(req.links))), IAP_BLOCK, reserved, used + taken, req);
  }

  // ---- accounts of a block ----

  /** The accounts of a sound block stand in its rows. */
  lemma BlockStands(st: State, req: Request, kind: Kind, block: Block, used: set<string>)
    requires UsedToday(st, req) <= used && Tested(block)
    requires Sound(block.rows, block, used)
    requires forall i :: 0 <= i < |block.rows| ==>
      InSheetOrCopied(block.rows[i], if kind == Iaa then st.sheets.iaa else st.sheets.iap)
    ensures var accounts := AccountsOf(kind, block, req.includeTest);
      && |accounts| == |block.rows|
      && (forall k :: 0 <= k < |block.rows| ==>
        accounts[k].kind == kind && StandsIn(st, req, accounts[k], block.rows[k]))
      && (forall k :: 0 <= k < |block.rows| ==>
        (accounts[k].isTest <==>
          block.rows[k].isTest || (req.includeTest && FirstUntestedB4(block.rows, k))))
  {
    hide InSheetOrCopied, FirstUntestedB4;
    var rows := block.rows;
    assert forall i :: 0 <= i < |rows| ==> Free(rows[i], used);
    TestRowIsFirst(rows);
    OneFirstUntested(rows);
    forall k | 0 <= k < |rows|
      ensures (block.testRow.Some? && rows[k].rowNumber == block.testRow.value.rowNumber) <==> FirstUntestedB4(rows, k)
    {
      if block.testRow.Some? {
        var j :| 0 <= j < |rows| && rows[j] == block.testRow.value && FirstUntestedB4(rows, j);
        assert rows[k].rowNumber == rows[j].rowNumber ==> k == j;
      }
    }
  }

  lemma OneFirstUntested(rows: Sheet)
    ensures forall j, k ::
      0 <= j < |rows| && 0 <= k < |rows| && FirstUntestedB4(rows, j) && FirstUntestedB4(rows, k) ==>
      j == k
  {
  }

  /** IAP rows are never B4 rows. */
  ghost predicate NoB4(rows: Sheet) {
    forall i :: 0 <= i < |rows| ==> rows[i].group != "B4"
  }

  lemma JoinedStand(st: State, req: Request, first: seq<Account>, second: seq<Account>, x: Sheet, y: Sheet)
    requires |first| == |x| && |second| == |y| && NoB4(y)
    requires forall k :: 0 <= k < |x| ==> first[k].kind == Iaa && StandsIn(st, req, first[k], x[k])
    requires forall k :: 0 <= k < |y| ==> second[k].kind == Iap && StandsIn(st, req, second[k], y[k])
    requires forall k :: 0 <= k < |x| ==>
      (first[k].isTest <==> x[k].isTest || (req.includeTest && FirstUntestedB4(x, k)))
    requires forall k :: 0 <= k < |y| ==>
      (second[k].isTest <==> y[k].isTest || (req.includeTest && FirstUntestedB4(y, k)))
    ensures StandIn(st, req, first + second, x + y)
  {
    hide StandsIn;
    forall k | 0 <= k < |x + y|
      ensures FirstUntestedB4(x + y, k) <==> if k < |x| then FirstUntestedB4(x, k) else FirstUntestedB4(y, k - |x|)
    {
      assert forall j :: 0 <= j <= k ==> (x + y)[j] == if j < |x| then x[j] else y[j - |x|];
    }
  }

  lemma SoundInItself(rows: Sheet, block: Block, used: set<string>)
    requires Sound(rows, block, used)
    ensures Sound(block.rows, block, used)
  {
  }

  lemma PaidRowsAreNotB4(rows: Sheet, links: map<string, string>)
    requires PlanGuarantees.HasGroups(rows, Groups(IapPatterns(PaidTypes(links))))
    ensures NoB4(rows)
  {
    hide Groups, IapPatterns, PaidTypes;
    PlanGuarantees.IapGroups(PaidTypes(links));
  }

  lemma PlannedAccountsStand(st: State, req: Request)
    requires Tidy(st.sheets) && MakePlan(st, req).failure.None?
    ensures exists rows :: StandIn(st, req, AllAccounts(Blocks(MakePlan(st, req)), req.includeTest), rows)
  {
    hide MakePlan, Groups, Sound, Tested, AccountsOf, InSheetOrCopied, StandIn, Blocks, AllAccounts, NumbersUnique;
    hide StandsIn, FirstUntestedB4;
    var plan := MakePlan(st, req);
    PlansAreSound(st, req);
    PlansAreTested(st, req);
    PlansAddCopies(st, req);
    AssignmentPlans.PlansAreShaped(st, req);
    AccountsOfPlan(plan, req.includeTest);
    var used := UsedToday(st, req);
    var after := AfterAppends(st, plan, false).sheets;
    var more := used + if plan.iaa.Some? then Cids(plan.iaa.value.rows) else {};
    var x := if plan.iaa.Some? then plan.iaa.value.rows else [];
    var y := if plan.iap.Some? then plan.iap.value.rows else [];
    if plan.iaa.Some? {
      SoundInItself(after.iaa, plan.iaa.value, used);
      BlockRowsCopied(st.sheets.iaa, plan.iaaAdded, plan.iaa.value, used);
      BlockStands(st, req, Iaa, plan.iaa.value, used);
    }
    if plan.iap.Some? {
      SoundInItself(after.iap, plan.iap.value, more);
      BlockRowsCopied(st.sheets.iap, plan.iapAdded, plan.iap.value, more);
      BlockStands(st, req, Iap, plan.iap.value, more);
      PaidRowsAreNotB4(y, req.links);
    }
    JoinedStand(st, req,
      if plan.iaa.Some? then AccountsOf(Iaa, plan.iaa.value, req.includeTest) else [],
      if plan.iap.Some? then AccountsOf(Iap, plan.iap.value, req.includeTest) else [], x, y);
    assert StandIn(st, req, AllAccounts(Blocks(plan), req.includeTest), x + y);
  }

  lemma BlockRowsCopied(sheet: Sheet, added: Sheet, block: Block, used: set<string>)
    requires Sound(sheet + added, block, used) && forall r :: r in added ==> InSheetOrCopied(r, sheet)
    ensures forall i :: 0 <= i < |block.rows| ==> InSheetOrCopied(block.rows[i], sheet)
  {
    forall i | 0 <= i < |block.rows| ensures InSheetOrCopied(block.rows[i], sheet) {
      assert block.rows[i] in sheet + added;
      assert block.rows[i] in sheet || block.rows[i] in added;
    }
  }

  /**
   * With unique row numbers, the accounts of any run that previews, confirms or writes stand in free rows of the
   * sheets, or in copies below them, with CIDs unused that day; besides the rows' own test accounts only the first
   * untested B4 account is marked, and only on request.
   */
  lemma AccountsStandInRows(st: State, req: Request)
    requires Tidy(st.sheets)
    ensures var outcome := Assign(st, req).1;
      outcome.status in {Status.DryRun, Confirmed, PartialWrite} ==>
        exists rows :: StandIn(st, req, outcome.accounts, rows)
  {
    hide MakePlan, StandIn, Blocks, AllAccounts, StillAvailable, WriteBlocks, Record, CidList;
    AccountGuarantees.FailuresAreRefusals(st, req);
    if MakePlan(st, req).failure.None? {
      PlannedAccountsStand(st, req);
    }
  }

  // ---- the marks a run leaves ----

  predicate ShowsAccount(row: AccountRow, account: Account, name: string) {
    && row.rowNumber == account.rowNumber && row.cid == account.cid && row.group == account.role
    && row.dramaName == name && row.isTest == account.isTest
  }

  ghost predicate Shown(rows: Sheet, account: Account, name: string) {
    exists i :: 0 <= i < |rows| && ShowsAccount(rows[i], account, name)
  }

  lemma FilledShowsAccounts(kind: Kind, rows: Sheet, block: Block, req: Request, used: set<string>, k: nat)
    requires Sound(rows, block, used) && k < |block.rows|
    ensures Shown(Filled(rows, block, req), AccountsOf(kind, block, req.includeTest)[k], req.dramaName)
  {
    assert block.rows[k] in rows;
    var i :| 0 <= i < |rows| && rows[i] == block.rows[k];
    assert rows[i].rowNumber in Numbers(block.rows);
    assert ShowsAccount(Filled(rows, block, req)[i], AccountsOf(kind, block, req.includeTest)[k], req.dramaName);
  }

  /** After a run that wrote, each account's row carries the drama name and the account's test mark. */
  lemma WrittenRowsShowAccounts(st: State, req: Request)
    requires Tidy(st.sheets)
    ensures var (after, outcome) := Assign(st, req);
      outcome.status in {Confirmed, PartialWrite} ==> forall k :: 0 <= k < |outcome.accounts| ==>
        Shown(if outcome.accounts[k].kind == Iaa then after.sheets.iaa else after.sheets.iap,
          outcome.accounts[k], req.dramaName)
  {
    hide MakePlan, Blocks, AllAccounts, Commit, Filled, Shown, Sound, NumbersUnique, AccountsOf, CidList, Distinct;
    AccountGuarantees.FailuresAreRefusals(st, req);
    var plan := MakePlan(st, req);
    if plan.failure.None? && !req.dryRun {
      SoundPlanIsCommitted(st, req);
      PlansAreSound(st, req);
      AccountsOfPlan(plan, req.includeTest);
      var sheets := AfterAppends(st, plan, false).sheets;
      var used := UsedToday(st, req);
      var first := if plan.iaa.Some? then AccountsOf(Iaa, plan.iaa.value, req.includeTest) else [];
      var second := if plan.iap.Some? then AccountsOf(Iap, plan.iap.value, req.includeTest) else [];
      AccountsOfKind(plan, req.includeTest);
      forall k | 0 <= k < |first| ensures Shown(Applied(sheets, plan, req).iaa, first[k], req.dramaName) {
        FilledShowsAccounts(Iaa, sheets.iaa, plan.iaa.value, req, used, k);
      }
      forall k | 0 <= k < |second| ensures Shown(Applied(sheets, plan, req).iap, second[k], req.dramaName) {
        FilledShowsAccounts(Iap, sheets.iap, plan.iap.value, req,
          used + if plan.iaa.Some? then Cids(plan.iaa.value.rows) else {}, k);
      }
    }
  }

  lemma AccountsOfKind(plan: Plan, includeTest: bool)
    ensures plan.iaa.Some? ==>
      && |AccountsOf(Iaa, plan.iaa.value, includeTest)| == |plan.iaa.value.rows|
      && forall k :: 0 <= k < |plan.iaa.value.rows| ==> AccountsOf(Iaa, plan.iaa.value, includeTest)[k].kind == Iaa
    ensures plan.iap.Some? ==>
      && |AccountsOf(Iap, plan.iap.value, includeTest)| == |plan.iap.value.rows|
      && forall k :: 0 <= k < |plan.iap.value.rows| ==> AccountsOf(Iap, plan.iap.value, includeTest)[k].kind == Iap
  {
  }

  // ---- any sheets, with or without repeated numbers ----

  /** Only names and test marks may differ. */
  ghost predicate SameAccounts(before: Sheet, after: Sheet) {
    && |after| == |before|
    && forall i :: 0 <= i < |before| ==>
      after[i] == before[i].(dramaName := after[i].dramaName, isTest := after[i].isTest)
  }

  lemma SameAccountsTwice(x: Sheet, y: Sheet, z: Sheet)
    requires SameAccounts(x, y) && SameAccounts(y, z)
    ensures SameAccounts(x, z)
  {
  }

  lemma NumbersStay(x: Sheet, y: Sheet, number: int)
    requires SameAccounts(x, y)
    ensures LastWith(x, number) == LastWith(y, number)
  {
    SameNumbersSameLast(x, y, number);
  }

  /** The row a number stands for carries the name. */
  predicate NamedAt(rows: Sheet, number: int, name: string) {
    LastWith(rows, number).Some? && rows[LastWith(rows, number).value].dramaName == name
  }

  lemma OneNameIsWritten(rows: Sheet, number: int, name: string)
    requires LastWith(rows, number).Some?
    ensures var k := LastWith(rows, number).value;
      var next := rows[k := rows[k].(dramaName := name)];
      && SameAccounts(rows, next) && NamedAt(next, number, name)
      && (forall n :: LastWith(next, n) == LastWith(rows, n))
      && (forall n :: NamedAt(rows, n, name) ==> NamedAt(next, n, name))
  {
    hide LastWith;
    var k := LastWith(rows, number).value;
    var next := rows[k := rows[k].(dramaName := name)];
    forall n ensures LastWith(rows, n) == LastWith(next, n) {
      NumbersStay(rows, next, n);
    }
  }

  /** Names are written exactly when every number has a row; then each of those rows has the name. */
  lemma {:induction false} NamesAreWritten(rows: Sheet, numbers: seq<int>, name: string)
    ensures var (after, found) := WriteNames(rows, numbers, name);
      && (found <==> forall n :: n in numbers ==> LastWith(rows, n).Some?)
      && SameAccounts(rows, after)
      && (forall n :: found && n in numbers ==> NamedAt(after, n, name))
      && (forall n :: NamedAt(rows, n, name) ==> NamedAt(after, n, name))
    decreases |numbers|
  {
    hide LastWith, SameAccounts, NamedAt;
    if numbers == [] {
      SameAsItself(rows);
    } else {
      assert numbers[0] in numbers && forall n :: n in numbers[1..] ==> n in numbers;
      assert forall n :: n in numbers ==> n == numbers[0] || n in numbers[1..] by {
        assert numbers == [numbers[0]] + numbers[1..];
      }
      if LastWith(rows, numbers[0]).Some? {
        var k := LastWith(rows, numbers[0]).value;
        var next := rows[k := rows[k].(dramaName := name)];
        OneNameIsWritten(rows, numbers[0], name);
        NamesAreWritten(next, numbers[1..], name);
        SameAccountsTwice(rows, next, WriteNames(next, numbers[1..], name).0);
      } else {
        SameAsItself(rows);
      }
    }
  }

  lemma SameAsItself(rows: Sheet)
    ensures SameAccounts(rows, rows)
  {
  }

  /** The first number without a row stops the writing: what came before it is written. */
  lemma {:induction false} MissingNumberStops(rows: Sheet, found: seq<int>, missing: int, more: seq<int>, name: string)
    requires (forall n :: n in found ==> LastWith(rows, n).Some?) && LastWith(rows, missing).None?
    ensures WriteNames(rows, found + [missing] + more, name) == (WriteNames(rows, found, name).0, false)
    decreases |found|
  {
    hide LastWith;
    var all := found + [missing] + more;
    if found == [] {
      assert all[0] == missing;
    } else {
      var k := LastWith(rows, found[0]).value;
      var next := rows[k := rows[k].(dramaName := name)];
      assert all[0] == found[0] && all[1..] == found[1..] + [missing] + more;
      forall n ensures LastWith(rows, n) == LastWith(next, n) {
        NumbersStay(rows, next, n);
      }
      MissingNumberStops(next, found[1..], missing, more, name);
    }
  }

  /** A mark is written exactly when the number has a row. */
  lemma MarkIsWritten(rows: Sheet, number: int)
    ensures var (after, found) := WriteFlag(rows, number);
      && (found <==> LastWith(rows, number).Some?) && SameAccounts(rows, after)
      && (found ==> after[LastWith(after, number).value].isTest)
      && (forall i :: 0 <= i < |rows| ==> after[i].dramaName == rows[i].dramaName)
      && (!found ==> after == rows)
  {
    hide LastWith;
    var after := WriteFlag(rows, number).0;
    NumbersStay(rows, after, number);
  }

  /** Each account's row, the last of its number, is its account's and has the name. */
  ghost predicate ReadsBack(rows: Sheet, block: Block, name: string) {
    forall k :: 0 <= k < |block.rows| ==>
      && NamedAt(rows, block.rows[k].rowNumber, name)
      && rows[LastWith(rows, block.rows[k].rowNumber).value].cid == block.rows[k].cid
  }

  lemma AvailableHaveNumbers(rows: Sheet, block: Block)
    requires StillAvailable(block.rows, rows)
    ensures forall n :: n in NumberList(block.rows) ==> LastWith(rows, n).Some?
  {
    hide LastWith;
    assert forall k :: 0 <= k < |block.rows| ==> RowStillAvailable(block.rows[k], rows);
  }

  lemma TestNumberIsInBlock(block: Block, includeTest: bool)
    requires block.testRow.Some? ==> block.testRow.value in block.rows
    ensures TestNumber(block, includeTest).Some? ==> TestNumber(block, includeTest).value in NumberList(block.rows)
  {
    if block.testRow.Some? {
      var j :| 0 <= j < |block.rows| && block.rows[j] == block.testRow.value;
      assert NumberList(block.rows)[j] == block.testRow.value.rowNumber;
    }
  }

  /** A block whose rows are still available is written and read back in one go. */
  lemma AvailableIsWritten(rows: Sheet, block: Block, req: Request)
    requires StillAvailable(block.rows, rows)
    requires block.testRow.Some? ==> block.testRow.value in block.rows
    ensures var (named, found) := WriteNames(rows, NumberList(block.rows), req.dramaName);
      var test := TestNumber(block, req.includeTest);
      var (flagged, marked) := if test.Some? then WriteFlag(named, test.value) else (named, true);
      && found && marked && WriteConfirmed(block.rows, flagged, req.dramaName, test)
      && ReadsBack(flagged, block, req.dramaName)
  {
    hide LastWith, WriteNames, WriteFlag, RowWritten, NamedAt, SameAccounts, RowStillAvailable, TestNumber;
    var numbers := NumberList(block.rows);
    NamesAreWritten(rows, numbers, req.dramaName);
    AvailableHaveNumbers(rows, block);
    TestNumberIsInBlock(block, req.includeTest);
    var named := WriteNames(rows, numbers, req.dramaName).0;
    var test := TestNumber(block, req.includeTest);
    SameAsItself(named);
    if test.Some? {
      NumbersStay(rows, named, test.value);
      MarkIsWritten(named, test.value);
      NumbersStay(named, WriteFlag(named, test.value).0, test.value);
    }
    var flagged := if test.Some? then WriteFlag(named, test.value).0 else named;
    MarksKeepNames(named, flagged, test);
    forall k | 0 <= k < |block.rows|
      ensures RowWritten(block.rows[k], flagged, req.dramaName, test)
      ensures NamedAt(flagged, block.rows[k].rowNumber, req.dramaName)
      ensures LastWith(flagged, block.rows[k].rowNumber).Some?
      ensures flagged[LastWith(flagged, block.rows[k].rowNumber).value].cid == block.rows[k].cid
    {
      assert numbers[k] in numbers && numbers[k] == block.rows[k].rowNumber;
      WrittenRowReads(rows, named, flagged, block.rows[k], req.dramaName, test);
    }
  }

  lemma MarksKeepNames(named: Sheet, flagged: Sheet, test: Option<int>)
    requires flagged == if test.Some? then WriteFlag(named, test.value).0 else named
    ensures |flagged| == |named| && forall i :: 0 <= i < |named| ==> flagged[i].dramaName == named[i].dramaName
  {
    if test.Some? {
      MarkIsWritten(named, test.value);
    }
  }

  lemma WrittenRowReads(rows: Sheet, named: Sheet, flagged: Sheet, row: AccountRow, name: string, test: Option<int>)
    requires SameAccounts(rows, named) && SameAccounts(named, flagged) && RowStillAvailable(row, rows)
    requires NamedAt(named, row.rowNumber, name) && |flagged| == |named|
    requires forall i :: 0 <= i < |named| ==> flagged[i].dramaName == named[i].dramaName
    requires test.Some? ==> LastWith(flagged, test.value).Some? && flagged[LastWith(flagged, test.value).value].isTest
    ensures RowWritten(row, flagged, name, test) && NamedAt(flagged, row.rowNumber, name)
    ensures LastWith(flagged, row.rowNumber).Some?
    ensures flagged[LastWith(flagged, row.rowNumber).value].cid == row.cid
  {
    hide LastWith;
    NumbersStay(rows, named, row.rowNumber);
    NumbersStay(named, flagged, row.rowNumber);
  }

  /** Every block read back in its own sheet. */
  ghost predicate PlanReadsBack(plan: Plan, sheets: Sheets, name: string) {
    && (plan.iaa.Some? ==> ReadsBack(sheets.iaa, plan.iaa.value, name))
    && (plan.iap.Some? ==> ReadsBack(sheets.iap, plan.iap.value, name))
  }

  ghost predicate PlanAvailable(plan: Plan, sheets: Sheets) {
    && (plan.iaa.Some? ==> StillAvailable(plan.iaa.value.rows, sheets.iaa))
    && (plan.iap.Some? ==> StillAvailable(plan.iap.value.rows, sheets.iap))
  }

  lemma FirstAvailableIsWritten(sheets: Sheets, kind: Kind, block: Block, rest: seq<(Kind, Block)>, req: Request,
                                wrote: bool)
    requires StillAvailable(block.rows, RowsOf(sheets, kind))
    requires block.testRow.Some? ==> block.testRow.value in block.rows
    ensures exists flagged ::
      && ReadsBack(flagged, block, req.dramaName)
      && WriteBlocks(sheets, [(kind, block)] + rest, req, wrote)
        == WriteBlocks(WithRows(sheets, kind, flagged), rest, req, true)
  {
    hide StillAvailable, WriteNames, WriteFlag, WriteConfirmed, ReadsBack;
    AvailableIsWritten(RowsOf(sheets, kind), block, req);
    var blocks := [(kind, block)] + rest;
    assert blocks[0] == (kind, block) && blocks[1..] == rest;
    var named := WriteNames(RowsOf(sheets, kind), NumberList(block.rows), req.dramaName).0;
    var test := TestNumber(block, req.includeTest);
    var flagged := if test.Some? then WriteFlag(named, test.value).0 else named;
    assert forall rows, more :: WithRows(WithRows(sheets, kind, rows), kind, more) == WithRows(sheets, kind, more);
    assert ReadsBack(flagged, block, req.dramaName);
  }

  lemma AvailablePlanIsWritten(plan: Plan, sheets: Sheets, req: Request)
    requires PlanAvailable(plan, sheets)
    requires plan.iaa.Some? && plan.iaa.value.testRow.Some? ==> plan.iaa.value.testRow.value in plan.iaa.value.rows
    requires plan.iap.Some? && plan.iap.value.testRow.Some? ==> plan.iap.value.testRow.value in plan.iap.value.rows
    ensures var (after, writing) := WriteBlocks(sheets, Blocks(plan), req, false);
      writing == Written && PlanReadsBack(plan, after, req.dramaName)
  {
    hide StillAvailable, ReadsBack;
    var paid := if plan.iap.Some? then [(Iap, plan.iap.value)] else [];
    var between, wrote := sheets, false;
    if plan.iaa.Some? {
      FirstAvailableIsWritten(sheets, Iaa, plan.iaa.value, paid, req, false);
      var flagged :| ReadsBack(flagged, plan.iaa.value, req.dramaName)
        && WriteBlocks(sheets, [(Iaa, plan.iaa.value)] + paid, req, false)
          == WriteBlocks(WithRows(sheets, Iaa, flagged), paid, req, true);
      between, wrote := WithRows(sheets, Iaa, flagged), true;
      assert Blocks(plan) == [(Iaa, plan.iaa.value)] + paid;
    } else {
      assert Blocks(plan) == paid;
    }
    if plan.iap.Some? {
      FirstAvailableIsWritten(between, Iap, plan.iap.value, [], req, wrote);
      assert paid == [(Iap, plan.iap.value)] + [];
    }
  }

  /** The account's row, the last of its number, is the account's and has the name. */
  predicate AccountReadsBack(rows: Sheet, account: Account, name: string) {
    && NamedAt(rows, account.rowNumber, name)
    && rows[LastWith(rows, account.rowNumber).value].cid == account.cid
  }

  ghost predicate AllReadBack(sheets: Sheets, accounts: seq<Account>, name: string) {
    forall k :: 0 <= k < |accounts| ==> AccountReadsBack(RowsOf(sheets, accounts[k].kind), accounts[k], name)
  }

  lemma PlanReadBackIsAll(plan: Plan, includeTest: bool, sheets: Sheets, name: string)
    requires PlanReadsBack(plan, sheets, name)
    ensures AllReadBack(sheets, AllAccounts(Blocks(plan), includeTest), name)
  {
    hide LastWith, AllAccounts, Blocks;
    AccountsOfPlan(plan, includeTest);
    AccountsOfKind(plan, includeTest);
  }

  /** The record takes the CIDs: no two alike, none used that day. */
  predicate Recordable(st: State, req: Request, cids: seq<string>) {
    && (forall i, j :: 0 <= i < j < |cids| ==> cids[i] != cids[j])
    && (st.uses.Some? && req.day.Some? ==>
      forall i :: 0 <= i < |cids| ==> (req.day.value, cids[i]) !in st.uses.value)
  }

  /**
   * How a run ends in any sheets, row numbers repeated or not. Accounts that are confirmed or partly written read back
   * by number with CID and name; the write is partial exactly when uses are recorded and the record refuses the CIDs;
   * and a conflict, or no block, names no row.
   */
  lemma EveryRunEnds(st: State, req: Request)
    ensures var (after, outcome) := Assign(st, req);
      && (outcome.status in {Confirmed, PartialWrite} ==>
        && !req.dryRun && AllReadBack(after.sheets, outcome.accounts, req.dramaName)
        && (outcome.status == PartialWrite <==>
          Records(st, req) && !Recordable(st, req, CidList(outcome.accounts))))
      && (outcome.status in {Status.Conflict, Unavailable} ==>
        && AccountValidation.NamesNoRow(st.sheets.iaa, after.sheets.iaa)
        && AccountValidation.NamesNoRow(st.sheets.iap, after.sheets.iap) && after.uses == st.uses)
  {
    hide MakePlan, AllAccounts, Blocks, Blank, StillAvailable, WriteBlocks, AllReadBack, PlanReadsBack, Sound;
    hide AccountValidation.NamesNoRow, CidList, NumbersUnique;
    var plan := MakePlan(st, req);
    AddedRowsAreBlank(st, req);
    AccountValidation.AppendingNamesNoRow(st.sheets.iaa, plan.iaaAdded);
    AccountValidation.AppendingNamesNoRow(st.sheets.iap, plan.iapAdded);
    AccountGuarantees.FailuresAreRefusals(st, req);
    if plan.failure.None? && !req.dryRun {
      var after := AfterAppends(st, plan, false);
      var accounts := AllAccounts(Blocks(plan), req.includeTest);
      PlansAreSound(st, req);
      TestRowsAreInBlocks(st, req, plan);
      AvailabilityOfBlocks(plan, after.sheets);
      if Records(st, req) {
        RecordDecides(st, req, CidList(accounts));
      }
      if PlanAvailable(plan, after.sheets) {
        AvailablePlanIsWritten(plan, after.sheets, req);
        PlanReadBackIsAll(plan, req.includeTest, WriteBlocks(after.sheets, Blocks(plan), req, false).0, req.dramaName);
      }
    }
  }

  lemma TestRowsAreInBlocks(st: State, req: Request, plan: Plan)
    requires PlanSound(st, req, plan)
    ensures plan.iaa.Some? && plan.iaa.value.testRow.Some? ==> plan.iaa.value.testRow.value in plan.iaa.value.rows
    ensures plan.iap.Some? && plan.iap.value.testRow.Some? ==> plan.iap.value.testRow.value in plan.iap.value.rows
  {
    hide NumbersUnique, AfterAppends;
  }

  lemma AvailabilityOfBlocks(plan: Plan, sheets: Sheets)
    ensures (exists i ::
        0 <= i < |Blocks(plan)| && !StillAvailable(Blocks(plan)[i].1.rows, RowsOf(sheets, Blocks(plan)[i].0)))
      <==> !PlanAvailable(plan, sheets)
  {
    hide StillAvailable;
    var blocks := Blocks(plan);
    if plan.iaa.Some? {
      assert blocks[0] == (Iaa, plan.iaa.value);
    }
    if plan.iap.Some? {
      assert blocks[|blocks| - 1] == (Iap, plan.iap.value);
    }
  }

  lemma DisjointOrNot<T>(x: set<T>, y: set<T>)
    ensures x * y == {} <==> x !! y
  {
    if e :| e in x && e in y {
      assert e in x * y;
    }
  }

  lemma RecordDecides(st: State, req: Request, cids: seq<string>)
    requires st.uses.Some? && req.day.Some?
    ensures Record(st.uses.value, req.day.value, cids).Some? <==> Recordable(st, req, cids)
  {
    var used := UsedOn(st.uses.value, req.day.value);
    assert forall cid :: cid in used <==> (req.day.value, cid) in st.uses.value by {
      forall cid | (req.day.value, cid) in st.uses.value ensures cid in used {
        assert (req.day.value, cid).0 == req.day.value;
      }
    }
    DisjointOrNot(used, Members(cids));
    if used !! Members(cids) {
      forall i | 0 <= i < |cids| ensures cids[i] !in used {
        assert cids[i] in Members(cids);
      }
    } else {
      var cid :| cid in used * Members(cids);
      var i :| 0 <= i < |cids| && cids[i] == cid;
    }
  }

  /** Appended rows are numbered on from the highest number of the sheet. */
  ghost predicate NumberedOn(before: Sheet, after: Sheet) {
    && |before| <= |after|
    && forall i :: |before| <= i < |after| ==> after[i].rowNumber == MaxNumber(before) + 1 + i - |before|
  }

  lemma AddedAreNumbered(kind: Kind, rows: Sheet, groups: seq<string>, definition: Patterns,
                         reserved: set<string>, used: set<string>, req: Request)
    ensures var planned := PlanBlock(kind, rows, groups, definition, reserved, used, req);
      planned.Planned? ==> NumberedOn(rows, rows + planned.added)
  {
    hide FindBlock, Groups, AccountsOf, LatestTemplate, MaxNumber;
  }

  lemma PlansAreNumbered(st: State, req: Request)
    ensures var plan := MakePlan(st, req);
      NumberedOn(st.sheets.iaa, st.sheets.iaa + plan.iaaAdded)
          && NumberedOn(st.sheets.iap, st.sheets.iap + plan.iapAdded)
  {
    hide PlanBlock, Groups, Occupied, NumberedOn, MaxNumber;
    NothingAppended(st.sheets.iaa);
    NothingAppended(st.sheets.iap);
    var used := UsedToday(st, req);
    AddedAreNumbered(Iaa, st.sheets.iaa, Groups(IAA_BLOCK), IAA_BLOCK, used + Occupied(st.sheets.iaa), used, req);
    var plan := MakePlan(st, req);
    var taken := if plan.iaa.Some? then Cids(plan.iaa.value.rows) else {};
    var reserved := used + taken + (if Wants(req.links, "IAA") then Occupied(st.sheets.iaa) else {})
        + Occupied(st.sheets.iap);
    AddedAreNumbered(
      Iap, st.sheets.iap, Groups(IapPatterns(PaidTypes(req.links))), IAP_BLOCK, reserved, used + taken, req);
  }

  lemma NothingAppended(rows: Sheet)
    ensures NumberedOn(rows, rows + []) && rows + [] == rows
  {
    assert rows + [] == rows;
  }

  /** However a run ends, the rows it appended are numbered on. */
  lemma AppendedRowsAreNumbered(st: State, req: Request)
    ensures var after := Assign(st, req).0.sheets;
      NumberedOn(st.sheets.iaa, after.iaa) && NumberedOn(st.sheets.iap, after.iap)
  {
    hide MakePlan, Assign, MaxNumber;
    PlansAreNumbered(st, req);
    NothingAppended(st.sheets.iaa);
    NothingAppended(st.sheets.iap);
    AccountValidation.FinalKeepsAppended(st, req);
  }
}
