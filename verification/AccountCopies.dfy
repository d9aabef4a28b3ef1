// The roles of what is assigned, in order, and which rows of a sheet an append copies.
module AccountCopies {
  import opened Basics
  import opened Sorting
  import opened AccountSheets
  import opened AccountAllocation
  import opened AccountAssignment
  import opened AccountAssignmentProofs
  import opened AccountGuarantees
  import opened AccountResults
  import AccountValidation
  import AssignmentPlans
  import PlanGuarantees

  // ---- the shape of what is assigned ----

  function IaaRoles(): seq<string> {
    ["B1", "B1", "B1", "B4", "B4", "B4", "B7", "B7", "B7", "BX"]
  }

  function PaidRoles(nine: bool, two: bool): seq<string> {
    (if nine then ["B1-9.9", "B1-9.9", "B1-9.9"] else []) + (if two then ["B2-2.9", "B2-2.9", "B2-2.9"] else [])
  }

  lemma BlockShapes(links: map<string, string>)
    ensures Groups(IAA_BLOCK) == IaaRoles() && Groups(IAP_BLOCK) == PaidRoles(true, true)
    ensures Groups(IapPatterns(PaidTypes(links))) == PaidRoles(Wants(links, "9.9"), Wants(links, "2.9"))
  {
    IaaShape();
    PlanGuarantees.IapGroups(PaidTypes(links));
    PlanGuarantees.IapGroups({"9.9", "2.9"});
    assert IapPatterns({"9.9", "2.9"}) == IAP_BLOCK;
  }

  lemma IaaShape()
    ensures Groups(IAA_BLOCK) == IaaRoles()
  {
    assert forall group :: Repeat(group, 3) == [group, group, group] && Repeat(group, 1) == [group];
    assert IAA_BLOCK[1..] == [("B4", 3), ("B7", 3), ("BX", 1)];
    assert IAA_BLOCK[1..][1..] == [("B7", 3), ("BX", 1)];
    assert IAA_BLOCK[1..][1..][1..] == [("BX", 1)];
    assert Groups([("BX", 1)]) == ["BX"] by {
      assert [("BX", 1)][1..] == [];
    }
  }

  function Roles(accounts: seq<Account>): seq<string> {
    seq(|accounts|, i requires 0 <= i < |accounts| => accounts[i].role)
  }

  /** Whatever is previewed, confirmed or partly written has exactly the roles of the links wanted, in order. */
  lemma AssignedRoles(st: State, req: Request)
    ensures var outcome := Assign(st, req).1;
      outcome.status in {Status.DryRun, Confirmed, PartialWrite} ==>
        Roles(outcome.accounts) == (if Wants(req.links, "IAA") then IaaRoles() else [])
          + PaidRoles(Wants(req.links, "9.9"), Wants(req.links, "2.9"))
  {
    hide MakePlan, Blocks, AllAccounts, StillAvailable, WriteBlocks, Record, CidList, Groups, IapPatterns, IaaRoles;
    hide PaidRoles;
    AccountGuarantees.FailuresAreRefusals(st, req);
    if MakePlan(st, req).failure.None? {
      var plan := MakePlan(st, req);
      AssignmentPlans.PlansAreShaped(st, req);
      BlockShapes(req.links);
      AccountsOfPlan(plan, req.includeTest);
      NoPaidRoles(req.links);
      PlanRoles(plan, req);
    }
  }

  lemma NoPaidRoles(links: map<string, string>)
    ensures PaidTypes(links) == {} <==> !Wants(links, "9.9") && !Wants(links, "2.9")
    ensures PaidTypes(links) == {} ==> PaidRoles(Wants(links, "9.9"), Wants(links, "2.9")) == []
  {
    assert Wants(links, "9.9") ==> "9.9" in PaidTypes(links);
    assert Wants(links, "2.9") ==> "2.9" in PaidTypes(links);
  }

  lemma PlanRoles(plan: Plan, req: Request)
    requires AssignmentPlans.PlanShaped(plan, req.links)
    requires Groups(IAA_BLOCK) == IaaRoles()
    requires Groups(IapPatterns(PaidTypes(req.links))) == PaidRoles(Wants(req.links, "9.9"), Wants(req.links, "2.9"))
    ensures Roles(AllAccounts(Blocks(plan), req.includeTest)) ==
      (if Wants(req.links, "IAA") then IaaRoles() else []) + PaidRoles(Wants(req.links, "9.9"), Wants(req.links, "2.9"))
  {
    hide Groups, IapPatterns, IaaRoles, PaidRoles, PaidTypes, Blocks, AllAccounts;
    AccountsOfPlan(plan, req.includeTest);
    NoPaidRoles(req.links);
    var first := if plan.iaa.Some? then AccountsOf(Iaa, plan.iaa.value, req.includeTest) else [];
    var second := if plan.iap.Some? then AccountsOf(Iap, plan.iap.value, req.includeTest) else [];
    assert Roles(first + second) == Roles(first) + Roles(second);
    assert Roles([]) == [];
    if plan.iaa.Some? {
      assert Roles(first) == Groups(IAA_BLOCK);
    }
    if plan.iap.Some? {
      assert Roles(second) == Groups(IapPatterns(PaidTypes(req.links)));
    }
  }

  // ---- which rows are copied ----

  /** A complete block that may be copied stands at `k`: enabled, named rows with CIDs unused today, group by group. */
  ghost predicate MayCopy(st: State, req: Request, rows: Sheet, k: nat, roles: seq<string>, taken: set<string>) {
    && k + |roles| <= |rows|
    && forall i :: 0 <= i < |roles| ==> FitsCopy(st, req, rows[k + i], roles[i], taken)
  }

  ghost predicate FitsCopy(st: State, req: Request, row: AccountRow, role: string, taken: set<string>) {
    && row.group == role && row.enabled && row.cid != "" && row.name != ""
    && UnusedToday(st, req, row.cid) && row.cid !in taken
  }

  /** The added rows are blank copies, numbered on, of the last block that may be copied. */
  ghost predicate CopiesOfLast(st: State, req: Request, rows: Sheet, added: Sheet, roles: seq<string>,
                               taken: set<string>) {
    && |added| == |roles|
    && exists k: nat ::
      LastToCopy(st, req, rows, k, roles, taken) && CopiedFrom(rows, added, k)
  }

  ghost predicate LastToCopy(st: State, req: Request, rows: Sheet, k: nat, roles: seq<string>, taken: set<string>) {
    && MayCopy(st, req, rows, k, roles, taken)
    && forall j: nat :: j > k ==> !MayCopy(st, req, rows, j, roles, taken)
  }

  ghost predicate LastCopyable(rows: Sheet, k: nat, roles: seq<string>, used: set<string>) {
    CopyableAt(rows, k, roles, used) && forall j: nat :: j > k ==> !CopyableAt(rows, j, roles, used)
  }

  ghost predicate CopiedFrom(rows: Sheet, added: Sheet, k: nat) {
    k + |added| <= |rows| && forall i :: 0 <= i < |added| ==>
      added[i] == rows[k + i].(rowNumber := MaxNumber(rows) + 1 + i, isTest := false, dramaName := "")
  }

  lemma CopyableIsMayCopy(st: State, req: Request, rows: Sheet, k: nat, roles: seq<string>, taken: set<string>)
    ensures CopyableAt(rows, k, roles, UsedToday(st, req) + taken) <==> MayCopy(st, req, rows, k, roles, taken)
  {
    hide UsedToday, UnusedToday;
    UsedIsNotUnused(st, req);
    var used := UsedToday(st, req) + taken;
    if k + |roles| <= |rows| {
      forall i | 0 <= i < |roles|
        ensures Copyable(rows[k + i], roles[i], used) <==> FitsCopy(st, req, rows[k + i], roles[i], taken)
      {
        assert rows[k + i].cid in used <==> !UnusedToday(st, req, rows[k + i].cid) || rows[k + i].cid in taken;
      }
    }
  }

  lemma UsedIsNotUnused(st: State, req: Request)
    ensures forall cid :: cid in UsedToday(st, req) <==> !UnusedToday(st, req, cid)
  {
    if st.uses.Some? && req.day.Some? {
      forall cid ensures cid in UsedOn(st.uses.value, req.day.value) <==> (req.day.value, cid) in st.uses.value {
        if (req.day.value, cid) in st.uses.value {
          assert (req.day.value, cid).0 == req.day.value;
        }
      }
    }
  }

  /** The template stands at the last place that may be copied. */
  ghost predicate IsLast(rows: Sheet, template: Sheet, roles: seq<string>, used: set<string>) {
    exists k: nat ::
      k + |roles| <= |rows| && template == rows[k..k + |roles|] && LastCopyable(rows, k, roles, used)
  }

  ghost predicate NoneAbove(rows: Sheet, start: int, roles: seq<string>, used: set<string>) {
    forall j: nat :: j > start ==> !CopyableAt(rows, j, roles, used)
  }

  lemma {:induction false} LatestBelow(rows: Sheet, roles: seq<string>, used: set<string>, start: int)
    requires start + |roles| <= |rows| && NoneAbove(rows, start, roles, used)
    ensures match LatestTemplate(rows, roles, used, start)
      case None => NoneAbove(rows, -1, roles, used)
      case Some(template) => IsLast(rows, template, roles, used)
    decreases start
  {
    hide CopyableAt;
    if start >= 0 {
      if CopyableAt(rows, start, roles, used) {
        assert LastCopyable(rows, start, roles, used);
      } else {
        LatestBelow(rows, roles, used, start - 1);
      }
    }
  }

  lemma NoneAboveTheTop(rows: Sheet, roles: seq<string>, used: set<string>)
    ensures NoneAbove(rows, |rows| - |roles|, roles, used)
  {
  }

  lemma PlannedCopiesAreOfLast(st: State, req: Request, kind: Kind, rows: Sheet, groups: seq<string>,
                               definition: Patterns, reserved: set<string>, taken: set<string>)
    requires Groups(definition) != []
    ensures var planned := PlanBlock(kind, rows, groups, definition, reserved, UsedToday(st, req) + taken, req);
      planned.Planned? && planned.added != [] ==>
        CopiesOfLast(st, req, rows, planned.added, Groups(definition), taken)
  {
    hide PlanBlock, Groups, LatestTemplate, MaxNumber, Appended, CopiesOfLast, UsedToday;
    var used := UsedToday(st, req) + taken;
    AddedComeFromTheTemplate(kind, rows, groups, definition, reserved, used, req);
    var planned := PlanBlock(kind, rows, groups, definition, reserved, used, req);
    if planned.Planned? && planned.added != [] {
      LatestIsLast(st, req, rows, Groups(definition), taken);
    }
  }

  lemma AddedComeFromTheTemplate(kind: Kind, rows: Sheet, groups: seq<string>, definition: Patterns,
                                 reserved: set<string>, used: set<string>, req: Request)
    ensures var planned := PlanBlock(kind, rows, groups, definition, reserved, used, req);
      planned.Planned? && planned.added != [] ==>
        var template := LatestTemplate(rows, Groups(definition), used, |rows| - |Groups(definition)|);
        template.Some? && planned.added == Appended(MaxNumber(rows), template.value)
  {
    hide FindBlock, Groups, AccountsOf, LatestTemplate, MaxNumber, CopyableAt;
  }

  lemma LatestIsLast(st: State, req: Request, rows: Sheet, roles: seq<string>, taken: set<string>)
    requires roles != []
    requires LatestTemplate(rows, roles, UsedToday(st, req) + taken, |rows| - |roles|).Some?
    ensures var template := LatestTemplate(rows, roles, UsedToday(st, req) + taken, |rows| - |roles|).value;
      CopiesOfLast(st, req, rows, Appended(MaxNumber(rows), template), roles, taken)
  {
    hide LatestTemplate, MaxNumber, CopyableAt, UsedToday, CopiesOfLast, IsLast, NoneAbove, Appended;
    var used := UsedToday(st, req) + taken;
    NoneAboveTheTop(rows, roles, used);
    LatestBelow(rows, roles, used, |rows| - |roles|);
    CopiesOfTheLast(st, req, rows, LatestTemplate(rows, roles, used, |rows| - |roles|).value, roles, taken);
  }

  lemma CopiesOfTheLast(st: State, req: Request, rows: Sheet, template: Sheet, roles: seq<string>, taken: set<string>)
    requires IsLast(rows, template, roles, UsedToday(st, req) + taken)
    ensures CopiesOfLast(st, req, rows, Appended(MaxNumber(rows), template), roles, taken)
  {
    hide MaxNumber, UsedToday, CopiedFrom, Appended, LastToCopy, LastCopyable;
    var k: nat :| k + |roles| <= |rows| && template == rows[k..k + |roles|]
      && LastCopyable(rows, k, roles, UsedToday(st, req) + taken);
    LastMayCopy(st, req, rows, k, roles, taken);
    CopiesAreCopied(rows, k, |roles|);
  }

  lemma LastMayCopy(st: State, req: Request, rows: Sheet, k: nat, roles: seq<string>, taken: set<string>)
    requires LastCopyable(rows, k, roles, UsedToday(st, req) + taken)
    ensures LastToCopy(st, req, rows, k, roles, taken)
  {
    hide CopyableAt, MayCopy, UsedToday;
    CopyableIsMayCopy(st, req, rows, k, roles, taken);
    forall j: nat | j > k ensures !MayCopy(st, req, rows, j, roles, taken) {
      CopyableIsMayCopy(st, req, rows, j, roles, taken);
    }
  }

  lemma CopiesAreCopied(rows: Sheet, k: nat, size: nat)
    requires k + size <= |rows|
    ensures |Appended(MaxNumber(rows), rows[k..k + size])| == size
    ensures CopiedFrom(rows, Appended(MaxNumber(rows), rows[k..k + size]), k)
  {
    hide MaxNumber;
  }

  ghost predicate PlanCopiesLast(st: State, req: Request, plan: Plan) {
    && (plan.iaaAdded != [] ==> CopiesOfLast(st, req, st.sheets.iaa, plan.iaaAdded, IaaRoles(), {}))
    && (plan.iapAdded != [] ==> CopiesOfLast(st, req, st.sheets.iap, plan.iapAdded, PaidRoles(true, true),
          if plan.iaa.Some? then Cids(plan.iaa.value.rows) else {}))
  }

  lemma PlansCopyLast(st: State, req: Request)
    ensures PlanCopiesLast(st, req, MakePlan(st, req))
  {
    hide PlanBlock, Groups, Occupied, CopiesOfLast, MaxNumber, IaaRoles, PaidRoles;
    BlockShapes(req.links);
    RolesAreThere();
    var used := UsedToday(st, req);
    assert used + {} == used;
    PlannedCopiesAreOfLast(
      st, req, Iaa, st.sheets.iaa, Groups(IAA_BLOCK), IAA_BLOCK, used + Occupied(st.sheets.iaa), {});
    var plan := MakePlan(st, req);
    var taken := if plan.iaa.Some? then Cids(plan.iaa.value.rows) else {};
    var reserved := used + taken + (if Wants(req.links, "IAA") then Occupied(st.sheets.iaa) else {})
        + Occupied(st.sheets.iap);
    PlannedCopiesAreOfLast(
      st, req, Iap, st.sheets.iap, Groups(IapPatterns(PaidTypes(req.links))), IAP_BLOCK, reserved, taken);
  }

  lemma RolesAreThere()
    ensures |IaaRoles()| == 10 && |PaidRoles(true, true)| == 6
  {
  }

  /** Rows were appended as copies of the last block of the roles that may be copied, names and marks aside. */
  ghost predicate AppendedFromLast(st: State, req: Request, before: Sheet, after: Sheet, roles: seq<string>,
                                   taken: set<string>) {
    |after| != |before| ==>
      && |after| == |before| + |roles|
      && exists k: nat ::
        LastToCopy(st, req, before, k, roles, taken) && AppendedFrom(before, after, k, |roles|)
  }

  ghost predicate AppendedFrom(before: Sheet, after: Sheet, k: nat, size: nat) {
    && k + size <= |before| && |after| == |before| + size
    && forall i :: 0 <= i < size ==> IsCopy(before, after, k, i)
  }

  /** Row `i` of those appended takes everything but its number, its mark and its name from row `k + i`. */
  ghost predicate IsCopy(before: Sheet, after: Sheet, k: nat, i: nat)
    requires k + i < |before| && |before| + i < |after|
  {
    var copy := after[|before| + i];
    copy == before[k + i].(rowNumber := MaxNumber(before) + 1 + i, isTest := copy.isTest, dramaName := copy.dramaName)
  }

  lemma KeptCopies(st: State, req: Request, before: Sheet, added: Sheet, after: Sheet, roles: seq<string>,
                   taken: set<string>)
    requires Kept(before + added, after)
    requires added != [] ==> CopiesOfLast(st, req, before, added, roles, taken)
    ensures AppendedFromLast(st, req, before, after, roles, taken)
  {
    hide LastToCopy, MaxNumber;
    if added != [] {
      var k: nat :| LastToCopy(st, req, before, k, roles, taken) && CopiedFrom(before, added, k);
      assert AppendedFrom(before, after, k, |roles|) by {
        forall i | 0 <= i < |added| ensures IsCopy(before, after, k, i) {
          assert (before + added)[|before| + i] == added[i];
        }
      }
    }
  }

  function IaaCids(accounts: seq<Account>): set<string> {
    set a | a in accounts && a.kind == Iaa :: a.cid
  }

  /** However a run ends, what it appended is a copy of the last complete block that may be copied. */
  lemma AppendedIsTheLastBlock(st: State, req: Request)
    ensures var (after, outcome) := Assign(st, req);
      && AppendedFromLast(st, req, st.sheets.iaa, after.sheets.iaa, IaaRoles(), {})
      && AppendedFromLast(st, req, st.sheets.iap, after.sheets.iap, PaidRoles(true, true), IaaCids(outcome.accounts))
  {
    hide MakePlan, Commit, Kept, AppendedFromLast, CopiesOfLast, IaaRoles, PaidRoles, IaaCids, AllAccounts, Blocks;
    var plan := MakePlan(st, req);
    var (final, outcome) := Assign(st, req);
    PlansCopyLast(st, req);
    AccountValidation.FinalKeepsAppended(st, req);
    KeptCopies(st, req, st.sheets.iaa, if req.dryRun then [] else plan.iaaAdded, final.sheets.iaa, IaaRoles(), {});
    if !req.dryRun && plan.iapAdded != [] {
      PaidAppendsComeWithAccounts(st, req);
    }
    KeptCopies(st, req, st.sheets.iap, if req.dryRun then [] else plan.iapAdded, final.sheets.iap,
      PaidRoles(true, true), IaaCids(outcome.accounts));
  }

  lemma PaidAppendsComeWithAccounts(st: State, req: Request)
    requires MakePlan(st, req).iapAdded != []
    ensures var plan := MakePlan(st, req);
      IaaCids(Assign(st, req).1.accounts) == if plan.iaa.Some? then Cids(plan.iaa.value.rows) else {}
  {
    hide PlanBlock, Blocks, AllAccounts, StillAvailable, WriteBlocks, Record, CidList, Groups, Occupied;
    var plan := MakePlan(st, req);
    assert plan.failure.None?;
    AccountsOfPlan(plan, req.includeTest);
    AccountsOfKind(plan, req.includeTest);
    var first := if plan.iaa.Some? then AccountsOf(Iaa, plan.iaa.value, req.includeTest) else [];
    var second := if plan.iap.Some? then AccountsOf(Iap, plan.iap.value, req.includeTest) else [];
    IaaCidsJoin(first, second);
    if plan.iaa.Some? {
      IaaCidsOfBlock(plan.iaa.value, req.includeTest);
    }
  }

  lemma IaaCidsJoin(first: seq<Account>, second: seq<Account>)
    requires forall k :: 0 <= k < |second| ==> second[k].kind == Iap
    ensures IaaCids(first + second) == IaaCids(first) && IaaCids([]) == {}
  {
  }

  lemma IaaCidsOfBlock(block: Block, includeTest: bool)
    ensures IaaCids(AccountsOf(Iaa, block, includeTest)) == Cids(block.rows)
  {
    var accounts := AccountsOf(Iaa, block, includeTest);
    forall cid ensures cid in IaaCids(accounts) <==> cid in Cids(block.rows) {
      if cid in Cids(block.rows) {
        var i :| 0 <= i < |block.rows| && block.rows[i].cid == cid;
        assert accounts[i] in accounts && accounts[i].cid == cid;
      }
      if cid in IaaCids(accounts) {
        var i :| 0 <= i < |accounts| && accounts[i].cid == cid;
        assert block.rows[i] in block.rows;
      }
    }
  }
}
