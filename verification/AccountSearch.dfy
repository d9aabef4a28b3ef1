/** Where the search for blocks ends: at the first free block, at copies of the last one, or nowhere. */
module AccountSearch {
  import opened Basics
  import opened Sorting
  import opened AccountSheets
  import opened AccountAllocation
  import opened AccountAssignment
  import opened AccountAssignmentProofs
  import opened AccountGuarantees
  import opened AccountResults
  import AccountValidation
  import opened AccountCopies

  /**
   * What is searched for in one sheet: the roles of the rows in order, how they lie in a complete block of the sheet,
   * and the CIDs that the other sheet's block takes.
   */
  datatype Search = Search(kind: Kind, roles: seq<string>, complete: seq<string>, offset: nat, taken: set<string>)

  function IaaSearch(): Search {
    Search(Iaa, IaaRoles(), IaaRoles(), 0, {})
  }

  function PaidSearch(links: map<string, string>, taken: set<string>): Search {
    Search(Iap, PaidRoles(Wants(links, "9.9"), Wants(links, "2.9")), PaidRoles(true, true),
      if Wants(links, "9.9") then 0 else 3, taken)
  }

  /** Some row with the CID carries a drama name. */
  ghost predicate InUse(rows: Sheet, cid: string) {
    exists i :: 0 <= i < |rows| && rows[i].cid == cid && rows[i].dramaName != ""
  }

  /** Used today, taken by the other block, in use in the sheet, or, next to an IAA block, in use in the IAA sheet. */
  ghost predicate Barred(st: State, req: Request, s: Search, cid: string) {
    || !UnusedToday(st, req, cid) || cid in s.taken || InUse(RowsOf(st.sheets, s.kind), cid)
    || (s.kind == Iap && Wants(req.links, "IAA") && InUse(st.sheets.iaa, cid))
  }

  ghost predicate Free(st: State, req: Request, s: Search, row: AccountRow, role: string) {
    row.group == role && row.enabled && row.dramaName == "" && !Barred(st, req, s, row.cid)
  }

  ghost predicate FreeAt(st: State, req: Request, s: Search, k: nat) {
    var rows := RowsOf(st.sheets, s.kind);
    k + |s.roles| <= |rows| && forall i :: 0 <= i < |s.roles| ==> Free(st, req, s, rows[k + i], s.roles[i])
  }

  /** The first window of free rows. */
  ghost predicate FirstFree(st: State, req: Request, s: Search, k: nat) {
    FreeAt(st, req, s, k) && forall j: nat :: j < k ==> !FreeAt(st, req, s, j)
  }

  /** The rows found are the wanted part of a blank copy of the block at `k`, numbered on. */
  ghost predicate Copied(rows: Sheet, s: Search, k: nat, found: Sheet) {
    && |found| == |s.roles| && k + s.offset + |s.roles| <= |rows|
    && forall i :: 0 <= i < |found| ==> found[i] == rows[k + s.offset + i].(
      rowNumber := MaxNumber(rows) + 1 + s.offset + i, isTest := false, dramaName := "")
  }

  /** The search ends with these rows. */
  ghost predicate Ends(st: State, req: Request, s: Search, found: Sheet) {
    var rows := RowsOf(st.sheets, s.kind);
    if exists k: nat :: FreeAt(st, req, s, k) then
      exists k: nat :: FirstFree(st, req, s, k) && k + |s.roles| <= |rows| && found == rows[k..k + |s.roles|]
    else
      exists k: nat :: LastToCopy(st, req, rows, k, s.complete, s.taken) && Copied(rows, s, k, found)
  }

  /** A search has at most one end. */
  lemma EndsOnce(st: State, req: Request, s: Search, x: Sheet, y: Sheet)
    requires Ends(st, req, s, x) && Ends(st, req, s, y)
    ensures x == y
  {
    hide FreeAt, MayCopy, MaxNumber;
    var rows := RowsOf(st.sheets, s.kind);
    if exists k: nat :: FreeAt(st, req, s, k) {
      var j: nat :| FirstFree(st, req, s, j) && j + |s.roles| <= |rows| && x == rows[j..j + |s.roles|];
      var k: nat :| FirstFree(st, req, s, k) && k + |s.roles| <= |rows| && y == rows[k..k + |s.roles|];
      assert j == k;
    } else {
      var j: nat :| LastToCopy(st, req, rows, j, s.complete, s.taken) && Copied(rows, s, j, x);
      var k: nat :| LastToCopy(st, req, rows, k, s.complete, s.taken) && Copied(rows, s, k, y);
      assert j == k;
    }
  }

  // ---- the block of one sheet ----

  ghost predicate Bars(st: State, req: Request, s: Search, reserved: set<string>) {
    forall cid :: cid in reserved <==> Barred(st, req, s, cid)
  }

  lemma FreeIsMatching(st: State, req: Request, s: Search, reserved: set<string>, k: nat)
    requires Bars(st, req, s, reserved)
    ensures FreeAt(st, req, s, k) <==> MatchesAt(RowsOf(st.sheets, s.kind), k, s.roles, reserved)
  {
    hide Barred;
    var rows := RowsOf(st.sheets, s.kind);
    if k + |s.roles| <= |rows| {
      var window := rows[k..k + |s.roles|];
      assert forall i :: 0 <= i < |s.roles| ==> window[i] == rows[k + i];
      assert forall i :: 0 <= i < |s.roles| ==>
        (Free(st, req, s, rows[k + i], s.roles[i]) <==> Fits(window[i], s.roles[i], reserved));
    }
  }

  lemma FoundEnds(st: State, req: Request, s: Search, reserved: set<string>)
    requires Bars(st, req, s, reserved)
    ensures match FindBlock(RowsOf(st.sheets, s.kind), s.roles, reserved)
      case Some(block) => Ends(st, req, s, block.rows)
      case None => forall k: nat :: !FreeAt(st, req, s, k)
  {
    hide FreeAt, MatchesAt, Bars;
    var rows := RowsOf(st.sheets, s.kind);
    forall k: nat ensures FreeAt(st, req, s, k) <==> MatchesAt(rows, k, s.roles, reserved) {
      FreeIsMatching(st, req, s, reserved, k);
    }
    match FindStart(rows, s.roles, reserved, 0)
    case None =>
    case Some(k) =>
      RoomForMatch(rows, k, s.roles, reserved);
      assert FirstFree(st, req, s, k);
  }

  lemma RoomForMatch(rows: Sheet, k: nat, roles: seq<string>, reserved: set<string>)
    ensures MatchesAt(rows, k, roles, reserved) ==> k + |roles| <= |rows|
  {
  }

  /** The wanted roles lie at the offset of a complete block and nowhere before. */
  ghost predicate Lies(s: Search) {
    && s.roles != [] && s.offset + |s.roles| <= |s.complete|
    && s.complete[s.offset..s.offset + |s.roles|] == s.roles
    && forall j :: 0 <= j < s.offset ==> s.complete[j] != s.roles[0]
  }

  lemma CopiesAreFound(st: State, req: Request, s: Search, k: nat, added: Sheet)
    requires Lies(s) && |added| == |s.complete|
    requires MayCopy(st, req, RowsOf(st.sheets, s.kind), k, s.complete, s.taken)
    requires CopiedFrom(RowsOf(st.sheets, s.kind), added, k)
    ensures FindStart(added, s.roles, UsedToday(st, req) + s.taken, 0) == Some(s.offset)
  {
    hide UnusedToday, UsedToday, MaxNumber;
    var rows, used := RowsOf(st.sheets, s.kind), UsedToday(st, req) + s.taken;
    UsedIsNotUnused(st, req);
    var window := added[s.offset..s.offset + |s.roles|];
    forall i | 0 <= i < |s.roles| ensures Fits(window[i], s.roles[i], used) {
      assert FitsCopy(st, req, rows[k + (s.offset + i)], s.complete[s.offset + i], s.taken);
      assert s.complete[s.offset..s.offset + |s.roles|][i] == s.roles[i];
    }
    forall j: nat | j < s.offset ensures !MatchesAt(added, j, s.roles, used) {
      assert FitsCopy(st, req, rows[k + j], s.complete[j], s.taken);
      OtherGroup(added, j, s.roles, used);
    }
    FirstWindowIsUnique(added, s.roles, used, 0, Some(s.offset), FindStart(added, s.roles, used, 0));
  }

  lemma OtherGroup(rows: Sheet, k: nat, roles: seq<string>, used: set<string>)
    requires k < |rows| && roles != [] && rows[k].group != roles[0]
    ensures !MatchesAt(rows, k, roles, used)
  {
    if k + |roles| <= |rows| {
      assert !Fits(rows[k..k + |roles|][0], roles[0], used);
    }
  }

  lemma CompleteIsThere(s: Search)
    requires Lies(s)
    ensures s.complete != []
  {
  }

  lemma CopiesEnd(st: State, req: Request, s: Search)
    requires Lies(s) && forall k: nat :: !FreeAt(st, req, s, k)
    ensures var (rows, used) := (RowsOf(st.sheets, s.kind), UsedToday(st, req) + s.taken);
      match LatestTemplate(rows, s.complete, used, |rows| - |s.complete|)
      case None => forall found :: !Ends(st, req, s, found)
      case Some(template) =>
        var block := FindBlock(Appended(MaxNumber(rows), template), s.roles, used);
        block.Some? && Ends(st, req, s, block.value.rows)
  {
    hide FreeAt, LatestTemplate, MaxNumber, MayCopy, CopyableAt, CopiedFrom, UsedToday, UnusedToday, FindBlock, Lies;
    hide Copied, Appended, CopiesOfLast;
    var rows, used := RowsOf(st.sheets, s.kind), UsedToday(st, req) + s.taken;
    NoneAboveTheTop(rows, s.complete, used);
    LatestBelow(rows, s.complete, used, |rows| - |s.complete|);
    match LatestTemplate(rows, s.complete, used, |rows| - |s.complete|)
    case None =>
      forall k: nat ensures !MayCopy(st, req, rows, k, s.complete, s.taken) {
        CopyableIsMayCopy(st, req, rows, k, s.complete, s.taken);
      }
    case Some(template) =>
      CompleteIsThere(s);
      LatestIsLast(st, req, rows, s.complete, s.taken);
      CopiesHoldTheEnd(st, req, s, Appended(MaxNumber(rows), template));
  }

  lemma CopiesHoldTheEnd(st: State, req: Request, s: Search, added: Sheet)
    requires Lies(s) && forall k: nat :: !FreeAt(st, req, s, k)
    requires CopiesOfLast(st, req, RowsOf(st.sheets, s.kind), added, s.complete, s.taken)
    ensures var block := FindBlock(added, s.roles, UsedToday(st, req) + s.taken);
      block.Some? && Ends(st, req, s, block.value.rows)
  {
    hide FreeAt, MaxNumber, MayCopy, CopiedFrom, UsedToday, FindStart, Lies, Copied;
    var rows := RowsOf(st.sheets, s.kind);
    var k: nat :| LastToCopy(st, req, rows, k, s.complete, s.taken) && CopiedFrom(rows, added, k);
    CopiesAreFound(st, req, s, k, added);
    CopiedPart(rows, s, k, added);
  }

  lemma CopiedPart(rows: Sheet, s: Search, k: nat, added: Sheet)
    requires Lies(s) && |added| == |s.complete| && CopiedFrom(rows, added, k)
    ensures s.offset + |s.roles| <= |added| && Copied(rows, s, k, added[s.offset..s.offset + |s.roles|])
  {
    hide MaxNumber;
    var found := added[s.offset..s.offset + |s.roles|];
    forall i | 0 <= i < |found| ensures found[i] == rows[k + s.offset + i].(
        rowNumber := MaxNumber(rows) + 1 + s.offset + i, isTest := false, dramaName := "") {
      assert found[i] == added[s.offset + i];
      assert k + s.offset + i == k + (s.offset + i);
    }
  }

  /** The block planned for a sheet is where the search ends; without an end there is none. */
  lemma BlockEnds(st: State, req: Request, s: Search, definition: Patterns, reserved: set<string>)
    requires Bars(st, req, s, reserved) && Lies(s) && Groups(definition) == s.complete
    ensures match PlanBlock(
          s.kind, RowsOf(st.sheets, s.kind), s.roles, definition, reserved, UsedToday(st, req) + s.taken, req)
      case Planned(block, _) => Ends(st, req, s, block.rows)
      case NoBlock => forall found :: !Ends(st, req, s, found)
      case Refused => req.validator.Some?
  {
    hide Bars, Lies, Ends, FindBlock, LatestTemplate, MaxNumber, Appended, AccountsOf, UsedToday, Groups, FreeAt;
    FoundEnds(st, req, s, reserved);
    if FindBlock(RowsOf(st.sheets, s.kind), s.roles, reserved).None? {
      CopiesEnd(st, req, s);
    }
  }

  // ---- the searches of a request ----

  predicate WantsPaid(links: map<string, string>) {
    Wants(links, "9.9") || Wants(links, "2.9")
  }

  /** The searches of a request end with these rows of the IAA sheet and these of the other one. */
  ghost predicate Found(st: State, req: Request, iaa: Sheet, paid: Sheet) {
    && (Wants(req.links, "IAA") || WantsPaid(req.links))
    && (if Wants(req.links, "IAA") then Ends(st, req, IaaSearch(), iaa) else iaa == [])
    && (if WantsPaid(req.links) then Ends(st, req, PaidSearch(req.links, Cids(iaa)), paid) else paid == [])
  }

  lemma SearchesLie(links: map<string, string>, taken: set<string>)
    ensures Lies(IaaSearch())
    ensures WantsPaid(links) ==> Lies(PaidSearch(links, taken))
  {
    var nine, two := ["B1-9.9", "B1-9.9", "B1-9.9"], ["B2-2.9", "B2-2.9", "B2-2.9"];
    assert PaidRoles(true, true) == nine + two;
    assert PaidRoles(true, false) == nine + [] == nine && PaidRoles(false, true) == [] + two == two;
    assert IaaRoles()[0..10] == IaaRoles() && (nine + two)[0..3] == nine && (nine + two)[3..6] == two;
    assert (nine + two)[0..6] == nine + two;
  }

  lemma OccupiedIsInUse(rows: Sheet)
    ensures forall cid :: cid in Occupied(rows) <==> InUse(rows, cid)
  {
    forall cid ensures cid in Occupied(rows) <==> InUse(rows, cid) {
      if InUse(rows, cid) {
        var i :| 0 <= i < |rows| && rows[i].cid == cid && rows[i].dramaName != "";
        assert rows[i] in rows;
      }
    }
  }

  lemma ReservedBars(st: State, req: Request, taken: set<string>)
    ensures Bars(st, req, IaaSearch(), UsedToday(st, req) + Occupied(st.sheets.iaa))
    ensures Bars(st, req, PaidSearch(req.links, taken),
      UsedToday(st, req) + taken + (if Wants(req.links, "IAA") then Occupied(st.sheets.iaa) else {})
        + Occupied(st.sheets.iap))
  {
    hide UsedToday, UnusedToday, Occupied, InUse, IaaRoles, PaidRoles;
    UsedIsNotUnused(st, req);
    OccupiedIsInUse(st.sheets.iaa);
    OccupiedIsInUse(st.sheets.iap);
  }

  lemma IaaEnds(st: State, req: Request)
    ensures match PlanIaa(st, req)
      case Planned(block, _) => Ends(st, req, IaaSearch(), block.rows)
      case NoBlock => forall found :: !Ends(st, req, IaaSearch(), found)
      case Refused => req.validator.Some?
  {
    hide PlanBlock, Bars, Ends, Lies, Groups, UsedToday, Occupied, IaaRoles;
    BlockShapes(req.links);
    SearchesLie(req.links, {});
    ReservedBars(st, req, {});
    assert UsedToday(st, req) + {} == UsedToday(st, req);
    BlockEnds(st, req, IaaSearch(), IAA_BLOCK, UsedToday(st, req) + Occupied(st.sheets.iaa));
  }

  lemma PaidEnds(st: State, req: Request, iaa: Option<Block>)
    requires WantsPaid(req.links)
    ensures var s := PaidSearch(req.links, if iaa.Some? then Cids(iaa.value.rows) else {});
      match PlanIap(st, req, iaa)
      case Planned(block, _) => Ends(st, req, s, block.rows)
      case NoBlock => forall found :: !Ends(st, req, s, found)
      case Refused => req.validator.Some?
  {
    hide PlanBlock, Bars, Ends, Lies, Groups, UsedToday, Occupied, PaidRoles, IapPatterns, PaidTypes;
    var taken := if iaa.Some? then Cids(iaa.value.rows) else {};
    BlockShapes(req.links);
    SearchesLie(req.links, taken);
    ReservedBars(st, req, taken);
    BlockEnds(st, req, PaidSearch(req.links, taken), IAP_BLOCK,
      UsedToday(st, req) + taken + (if Wants(req.links, "IAA") then Occupied(st.sheets.iaa) else {})
        + Occupied(st.sheets.iap));
  }

  lemma NoCids()
    ensures Cids([]) == {}
  {
  }

  /** What is planned is where the searches end; nothing is planned for want of an end, or by the check. */
  lemma PlanEnds(st: State, req: Request)
    ensures var plan := MakePlan(st, req);
      && (plan.failure.None? ==> Found(st, req, if plan.iaa.Some? then plan.iaa.value.rows else [],
            if plan.iap.Some? then plan.iap.value.rows else []))
      && (plan.failure == Some(Unavailable) ==> forall iaa, paid :: !Found(st, req, iaa, paid))
      && (plan.failure.Some? && plan.failure.value != Unavailable ==> req.validator.Some?)
  {
    hide PlanIaa, PlanIap, Ends, PaidTypes, Cids, IaaSearch, PaidSearch;
    NoPaidRoles(req.links);
    NoCids();
    IaaEnds(st, req);
    var plan := MakePlan(st, req);
    if !Wants(req.links, "IAA") || PlanIaa(st, req).Planned? {
      var block := if Wants(req.links, "IAA") then Some(PlanIaa(st, req).block) else None;
      if WantsPaid(req.links) {
        PaidEnds(st, req, block);
      }
      forall iaa, paid | Found(st, req, iaa, paid)
        ensures iaa == (if block.Some? then block.value.rows else []) {
        if block.Some? {
          EndsOnce(st, req, IaaSearch(), iaa, block.value.rows);
        }
      }
    }
  }

  /** The accounts are those of the rows, IAA first. */
  ghost predicate AreIn(accounts: seq<Account>, iaa: Sheet, paid: Sheet) {
    && |accounts| == |iaa + paid|
    && forall k :: 0 <= k < |accounts| ==>
      && accounts[k].rowNumber == (iaa + paid)[k].rowNumber && accounts[k].cid == (iaa + paid)[k].cid
      && accounts[k].role == (iaa + paid)[k].group && (accounts[k].kind == Iaa <==> k < |iaa|)
  }

  lemma PlanAccountsAreIn(plan: Plan, includeTest: bool)
    ensures AreIn(AllAccounts(Blocks(plan), includeTest),
      if plan.iaa.Some? then plan.iaa.value.rows else [], if plan.iap.Some? then plan.iap.value.rows else [])
    ensures |AllAccounts(Blocks(plan), includeTest)| == (if plan.iaa.Some? then |plan.iaa.value.rows| else 0)
      + (if plan.iap.Some? then |plan.iap.value.rows| else 0)
  {
    hide AllAccounts, Blocks;
    AccountsOfPlan(plan, includeTest);
  }

  /**
   * Which accounts a run names: in each sheet wanted the first window of free rows, without one the copy of the last
   * complete block that may be copied. It is unavailable exactly when one of the searches ends nowhere, unless the
   * check has refused the copies of one before.
   */
  lemma SearchDecides(st: State, req: Request)
    ensures var outcome := Assign(st, req).1;
      && (outcome.status == Unavailable ==> forall iaa, paid :: !Found(st, req, iaa, paid))
      && (forall iaa, paid :: Found(st, req, iaa, paid) && outcome.accounts != [] ==>
           AreIn(outcome.accounts, iaa, paid))
      && (outcome.accounts != [] || outcome.status in {Status.DryRun, Confirmed, PartialWrite} ==>
           exists iaa, paid :: Found(st, req, iaa, paid))
      && (outcome.status == Status.Conflict && outcome.accounts == [] ==> req.validator.Some?)
      && (req.validator.None? ==>
        (outcome == Outcome(Unavailable, []) <==> forall iaa, paid :: !Found(st, req, iaa, paid)))
  {
    hide MakePlan, AllAccounts, Blocks, AreIn, Found, StillAvailable, WriteBlocks, Record, CidList;
    var plan := MakePlan(st, req);
    PlanEnds(st, req);
    AccountGuarantees.FailuresAreRefusals(st, req);
    if plan.failure.None? {
      var x := if plan.iaa.Some? then plan.iaa.value.rows else [];
      var y := if plan.iap.Some? then plan.iap.value.rows else [];
      PlanAccountsAreIn(plan, req.includeTest);
      forall iaa, paid | Found(st, req, iaa, paid) ensures iaa == x && paid == y {
        FoundOnce(st, req, iaa, paid, x, y);
      }
      FoundIsThere(st, req, x, y);
    }
  }

  lemma FoundOnce(st: State, req: Request, iaa: Sheet, paid: Sheet, iaaToo: Sheet, paidToo: Sheet)
    requires Found(st, req, iaa, paid) && Found(st, req, iaaToo, paidToo)
    ensures iaa == iaaToo && paid == paidToo
  {
    hide Ends, Cids, IaaSearch, PaidSearch;
    if Wants(req.links, "IAA") {
      EndsOnce(st, req, IaaSearch(), iaa, iaaToo);
    }
    if WantsPaid(req.links) {
      EndsOnce(st, req, PaidSearch(req.links, Cids(iaa)), paid, paidToo);
    }
  }

  lemma FoundIsThere(st: State, req: Request, iaa: Sheet, paid: Sheet)
    requires Found(st, req, iaa, paid)
    ensures iaa + paid != []
  {
    hide FreeAt, LastToCopy, MaxNumber;
    SearchesLie(req.links, Cids(iaa));
  }

  // ---- when accounts found cannot be written ----

  /** A sheet before names were written: the former rows, and the appended ones still blank. */
  function Unwritten(before: Sheet, after: Sheet): Sheet
    requires |before| <= |after|
  {
    before + seq(|after| - |before|, i requires 0 <= i < |after| - |before| =>
      after[|before| + i].(dramaName := "", isTest := false))
  }

  /** The account's number still leads to a free, enabled row with its CID and role. */
  predicate Available(rows: Sheet, account: Account) {
    match LastWith(rows, account.rowNumber)
    case None => false
    case Some(k) =>
      rows[k].cid == account.cid && rows[k].group == account.role && rows[k].enabled && rows[k].dramaName == ""
  }

  ghost predicate AllAvailable(sheets: Sheets, accounts: seq<Account>) {
    forall k :: 0 <= k < |accounts| ==> Available(RowsOf(sheets, accounts[k].kind), accounts[k])
  }

  lemma BlockAvailable(kind: Kind, block: Block, includeTest: bool, sheets: Sheets)
    ensures StillAvailable(block.rows, RowsOf(sheets, kind))
        <==> AllAvailable(sheets, AccountsOf(kind, block, includeTest))
  {
    hide LastWith;
    var accounts := AccountsOf(kind, block, includeTest);
    assert forall k :: 0 <= k < |accounts| ==>
      (RowStillAvailable(block.rows[k], RowsOf(sheets, kind)) <==> Available(RowsOf(sheets, kind), accounts[k]));
  }

  lemma BothAvailable(sheets: Sheets, x: seq<Account>, y: seq<Account>)
    ensures AllAvailable(sheets, x + y) <==> AllAvailable(sheets, x) && AllAvailable(sheets, y)
  {
    hide Available;
    if AllAvailable(sheets, x + y) {
      assert forall k :: 0 <= k < |x| ==> x[k] == (x + y)[k];
      assert forall k :: 0 <= k < |y| ==> y[k] == (x + y)[|x| + k];
    }
  }

  lemma PlanIsAvailable(plan: Plan, includeTest: bool, sheets: Sheets)
    ensures PlanAvailable(plan, sheets) <==> AllAvailable(sheets, AllAccounts(Blocks(plan), includeTest))
  {
    hide StillAvailable, Available, AllAccounts, Blocks;
    AccountsOfPlan(plan, includeTest);
    var iaa := if plan.iaa.Some? then AccountsOf(Iaa, plan.iaa.value, includeTest) else [];
    var paid := if plan.iap.Some? then AccountsOf(Iap, plan.iap.value, includeTest) else [];
    BothAvailable(sheets, iaa, paid);
    if plan.iaa.Some? {
      BlockAvailable(Iaa, plan.iaa.value, includeTest, sheets);
    }
    if plan.iap.Some? {
      BlockAvailable(Iap, plan.iap.value, includeTest, sheets);
    }
  }

  lemma KeptIsUnwritten(before: Sheet, added: Sheet, after: Sheet)
    requires Kept(before + added, after) && Blank(added)
    ensures |before| <= |after| && Unwritten(before, after) == before + added
  {
    forall i | 0 <= i < |added| ensures after[|before| + i].(dramaName := "", isTest := false) == added[i] {
      assert (before + added)[|before| + i] == added[i];
    }
  }

  /**
   * Accounts that were found and pass the check end in a conflict exactly when one of their row numbers leads to a row
   * that is not theirs and free, which takes a repeated number.
   */
  lemma ConflictsAreForeignRows(st: State, req: Request)
    ensures var (after, outcome) := Assign(st, req);
      && |st.sheets.iaa| <= |after.sheets.iaa| && |st.sheets.iap| <= |after.sheets.iap|
      && (!req.dryRun && outcome.accounts != [] && (req.validator.Some? ==> req.validator.value(outcome.accounts)) ==>
        var sheets := Sheets(
          Unwritten(st.sheets.iaa, after.sheets.iaa), Unwritten(st.sheets.iap, after.sheets.iap));
        outcome.status == Status.Conflict <==> !AllAvailable(sheets, outcome.accounts))
  {
    hide MakePlan, AllAccounts, Blocks, Kept, Unwritten, AllAvailable, StillAvailable, WriteBlocks, PlanAvailable,
        Blank;
    hide Record, CidList, PlanReadsBack;
    var plan := MakePlan(st, req);
    var final := Assign(st, req).0;
    AccountValidation.FinalKeepsAppended(st, req);
    AddedRowsAreBlank(st, req);
    NothingIsBlank();
    KeptIsUnwritten(st.sheets.iaa, if req.dryRun then [] else plan.iaaAdded, final.sheets.iaa);
    KeptIsUnwritten(st.sheets.iap, if req.dryRun then [] else plan.iapAdded, final.sheets.iap);
    if plan.failure.None? && !req.dryRun {
      var started := AfterAppends(st, plan, false);
      PlanIsAvailable(plan, req.includeTest, started.sheets);
      AvailabilityOfBlocks(plan, started.sheets);
      PlansAreSound(st, req);
      TestRowsAreInBlocks(st, req, plan);
      if PlanAvailable(plan, started.sheets) {
        AvailablePlanIsWritten(plan, started.sheets, req);
      }
    }
  }

  lemma NothingIsBlank()
    ensures Blank([])
  {
  }
}
