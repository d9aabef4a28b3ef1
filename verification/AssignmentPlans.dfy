/** From a production assignment to a form: the accounts the service assigns are what the plan needs. */
module AssignmentPlans {
  import opened Basics
  import opened Sorting
  import opened AccountSheets
  import opened AccountAllocation
  import opened AccountAssignment
  import opened AccountAssignmentProofs
  import AccountGuarantees
  import opened Text
  import opened MaterialGroups
  import opened Plans
  import opened PlanGuarantees

  /** The assigned accounts as the plan takes them. */
  function ForPlan(accounts: seq<Account>): seq<PlanAccount> {
    seq(|accounts|, i requires 0 <= i < |accounts| => PlanAccount(accounts[i].role, accounts[i].cid,
        accounts[i].isTest))
  }

  predicate Assigned(outcome: Outcome) {
    outcome.status == Confirmed || outcome.status == Status.DryRun
  }

  // ---- groups of a planned block ----

  lemma PlannedBlockHasGroups(kind: Kind, rows: Sheet, groups: seq<string>, definition: Patterns,
                              reserved: set<string>, used: set<string>, req: Request)
    ensures var planned := PlanBlock(kind, rows, groups, definition, reserved, used, req);
      planned.Planned? ==> HasGroups(planned.block.rows, groups)
  {
    hide FindBlock, Groups, LatestTemplate, AccountsOf, Appended;
    if FindBlock(rows, groups, reserved).Some? {
      FoundRowsHaveGroups(rows, groups, reserved);
    } else if LatestTemplate(rows, Groups(definition), used, |rows| - |Groups(definition)|).Some? {
      var template := LatestTemplate(rows, Groups(definition), used, |rows| - |Groups(definition)|).value;
      var added := Appended(MaxNumber(rows), template);
      if FindBlock(added, groups, used).Some? {
        FoundRowsHaveGroups(added, groups, used);
      }
    }
  }

  /** A plan that did not fail has the IAA block exactly if its link is wanted, and the paid block alike. */
  ghost predicate PlanShaped(plan: Plan, links: map<string, string>) {
    && (plan.iaa.Some? <==> Wants(links, "IAA"))
    && (plan.iap.Some? <==> PaidTypes(links) != {})
    && (plan.iaa.Some? ==> HasGroups(plan.iaa.value.rows, Groups(IAA_BLOCK)))
    && (plan.iap.Some? ==> HasGroups(plan.iap.value.rows, Groups(IapPatterns(PaidTypes(links)))))
  }

  lemma PlansAreShaped(st: State, req: Request)
    requires MakePlan(st, req).failure.None?
    ensures PlanShaped(MakePlan(st, req), req.links)
  {
    hide PlanBlock, Groups, HasGroups, Occupied;
    var used := UsedToday(st, req);
    PlannedBlockHasGroups(Iaa, st.sheets.iaa, Groups(IAA_BLOCK), IAA_BLOCK, used + Occupied(st.sheets.iaa), used, req);
    var plan := MakePlan(st, req);
    var taken := if plan.iaa.Some? then Cids(plan.iaa.value.rows) else {};
    var reserved := used + taken + (if Wants(req.links, "IAA") then Occupied(st.sheets.iaa) else {})
        + Occupied(st.sheets.iap);
    PlannedBlockHasGroups(Iap, st.sheets.iap, Groups(IapPatterns(PaidTypes(req.links))), IAP_BLOCK, reserved,
        used + taken, req);
  }

  // ---- the accounts in parts ----

  lemma AssignedAccounts(st: State, req: Request)
    requires Assigned(Assign(st, req).1)
    ensures MakePlan(st, req).failure.None?
    ensures Assign(st, req).1.accounts == AllAccounts(Blocks(MakePlan(st, req)), req.includeTest)
  {
    hide MakePlan, Blocks, AllAccounts, WriteBlocks, StillAvailable, Record;
    FailuresAreRefusals(st, req);
  }

  lemma FailuresAreRefusals(st: State, req: Request)
    ensures MakePlan(st, req).failure in {None, Some(Unavailable), Some(Status.Conflict)}
  {
    hide PlanBlock;
  }

  lemma LinkSetWants(links: map<string, string>)
    ensures forall t :: t in LINK_TYPES ==> (t in LinkSet(links) <==> Wants(links, t))
    ensures RequiredIap(LinkSet(links)) == PaidTypes(links)
  {
    assert "IAA" in LINK_TYPES && "9.9" in LINK_TYPES && "2.9" in LINK_TYPES;
  }

  /** Assigned accounts come in parts, each there exactly if its link is wanted: IAA, then 9.9, then 2.9. */
  lemma AssignedIsInParts(st: State, req: Request)
    requires Assigned(Assign(st, req).1)
    ensures exists a, b :: InParts(ForPlan(Assign(st, req).1.accounts), LinkSet(req.links), a, b)
  {
    hide Assign, MakePlan, Groups, IapPatterns, AllAccounts, Blocks, InParts;
    AssignedAccounts(st, req);
    PlansAreShaped(st, req);
    var plan := MakePlan(st, req);
    AccountsOfPlan(plan, req.includeTest);
    PlanInParts(plan, req.links, req.includeTest);
  }

  lemma PlanInParts(plan: Plan, links: map<string, string>, includeTest: bool)
    requires PlanShaped(plan, links)
    ensures exists a, b :: InParts(ForPlan(AllAccounts(Blocks(plan), includeTest)), LinkSet(links), a, b)
  {
    hide Groups, IapPatterns, AllAccounts, Blocks, InParts, LinkSet, PaidTypes, RequiredIap;
    AccountsOfPlan(plan, includeTest);
    var accounts := ForPlan(AllAccounts(Blocks(plan), includeTest));
    var iaa := if plan.iaa.Some? then plan.iaa.value.rows else [];
    var iap := if plan.iap.Some? then plan.iap.value.rows else [];
    var a, b := |iaa|, |iaa| + if "9.9" in LinkSet(links) then 3 else 0;
    LinkSetWants(links);
    BlocksAreParts(accounts, LinkSet(links), iaa, iap, a, b);
  }

  // ---- distinct CIDs ----

  /** Every row has a CID of its own. */
  ghost predicate CidsUnique(rows: Sheet) {
    && (forall i :: 0 <= i < |rows| ==> rows[i].cid != "")
    && (forall i, j :: 0 <= i < j < |rows| ==> rows[i].cid != rows[j].cid)
  }

  lemma WindowsStayUnique(rows: Sheet, from: nat, to: nat)
    requires CidsUnique(rows) && from <= to <= |rows|
    ensures CidsUnique(rows[from..to])
  {
  }

  lemma FoundRowsStayUnique(rows: Sheet, groups: seq<string>, taken: set<string>)
    requires CidsUnique(rows) && FindBlock(rows, groups, taken).Some?
    ensures CidsUnique(FindBlock(rows, groups, taken).value.rows)
  {
    var k := FindStart(rows, groups, taken, 0).value;
    WindowsStayUnique(rows, k, k + |groups|);
  }

  lemma TemplatesAreUnique(rows: Sheet, groups: seq<string>, used: set<string>, start: int)
    requires CidsUnique(rows) && LatestTemplate(rows, groups, used, start).Some?
    ensures CidsUnique(LatestTemplate(rows, groups, used, start).value)
  {
    hide CidsUnique, LatestTemplate;
    var template := LatestTemplate(rows, groups, used, start).value;
    var k :| 0 <= k <= start && CopyableAt(rows, k, groups, used) && template == rows[k..k + |groups|];
    WindowsStayUnique(rows, k, k + |groups|);
  }

  lemma PlannedRowsStayUnique(kind: Kind, rows: Sheet, groups: seq<string>, definition: Patterns,
                              reserved: set<string>, used: set<string>, req: Request)
    requires CidsUnique(rows)
    ensures var planned := PlanBlock(kind, rows, groups, definition, reserved, used, req);
      planned.Planned? ==> CidsUnique(planned.block.rows)
  {
    hide FindBlock, Groups, AccountsOf, CidsUnique, LatestTemplate, Appended;
    var start := |rows| - |Groups(definition)|;
    if FindBlock(rows, groups, reserved).Some? {
      FoundRowsStayUnique(rows, groups, reserved);
    } else if LatestTemplate(rows, Groups(definition), used, start).Some? {
      var template := LatestTemplate(rows, Groups(definition), used, start).value;
      TemplatesAreUnique(rows, Groups(definition), used, start);
      CopiesStayUnique(MaxNumber(rows), template);
      var added := Appended(MaxNumber(rows), template);
      if FindBlock(added, groups, used).Some? {
        FoundRowsStayUnique(added, groups, used);
      }
    }
  }

  lemma CopiesStayUnique(last: int, template: Sheet)
    requires CidsUnique(template)
    ensures CidsUnique(Appended(last, template))
  {
  }

  /** In sheets where every row has a CID of its own, so do the assigned accounts. */
  lemma AssignedIsFresh(st: State, req: Request)
    requires Assigned(Assign(st, req).1) && CidsUnique(st.sheets.iaa) && CidsUnique(st.sheets.iap)
    ensures Fresh(ForPlan(Assign(st, req).1.accounts))
  {
    hide Assign, MakePlan, AllAccounts, Blocks;
    AssignedAccounts(st, req);
    var plan := MakePlan(st, req);
    PlansAreSound(st, req);
    PlanRowsAreUnique(st, req);
    AccountsOfPlan(plan, req.includeTest);
    BlocksAreFresh(st, req, plan);
  }

  ghost predicate RowsUnique(plan: Plan) {
    (plan.iaa.Some? ==> CidsUnique(plan.iaa.value.rows)) && (plan.iap.Some? ==> CidsUnique(plan.iap.value.rows))
  }

  lemma PlanRowsAreUnique(st: State, req: Request)
    requires CidsUnique(st.sheets.iaa) && CidsUnique(st.sheets.iap)
    ensures RowsUnique(MakePlan(st, req))
  {
    hide PlanBlock, Groups, CidsUnique, Occupied;
    var used := UsedToday(st, req);
    PlannedRowsStayUnique(Iaa, st.sheets.iaa, Groups(IAA_BLOCK), IAA_BLOCK, used + Occupied(st.sheets.iaa), used, req);
    var plan := MakePlan(st, req);
    var taken := if plan.iaa.Some? then Cids(plan.iaa.value.rows) else {};
    var reserved := used + taken + (if Wants(req.links, "IAA") then Occupied(st.sheets.iaa) else {})
        + Occupied(st.sheets.iap);
    PlannedRowsStayUnique(Iap, st.sheets.iap, Groups(IapPatterns(PaidTypes(req.links))), IAP_BLOCK, reserved,
        used + taken, req);
  }

  lemma BlocksAreApart(st: State, req: Request, plan: Plan)
    requires PlanSound(st, req, plan) && plan.iaa.Some? && plan.iap.Some?
    ensures Cids(plan.iaa.value.rows) !! Cids(plan.iap.value.rows)
  {
    hide NumbersUnique, AfterAppends;
    var iaa, iap := plan.iaa.value.rows, plan.iap.value.rows;
    forall cid | cid in Cids(iap) ensures cid !in Cids(iaa) {
      var i :| 0 <= i < |iap| && iap[i].cid == cid;
      assert AccountAssignmentProofs.Free(iap[i], UsedToday(st, req) + Cids(iaa));
    }
  }

  lemma ApartStaysUnique(x: Sheet, y: Sheet)
    requires CidsUnique(x) && CidsUnique(y) && Cids(x) !! Cids(y)
    ensures CidsUnique(x + y)
  {
    forall i, j | 0 <= i < |x| && 0 <= j < |y| ensures x[i].cid != y[j].cid {
      assert x[i] in x && y[j] in y;
      assert x[i].cid in Cids(x) && y[j].cid in Cids(y);
    }
  }

  lemma UniqueRowsAreFresh(rows: Sheet, accounts: seq<Account>)
    requires CidsUnique(rows) && |accounts| == |rows|
    requires forall i :: 0 <= i < |rows| ==> accounts[i].cid == rows[i].cid
    ensures Fresh(ForPlan(accounts))
  {
  }

  lemma AccountsHaveCids(kind: Kind, block: Block, includeTest: bool)
    ensures |AccountsOf(kind, block, includeTest)| == |block.rows|
    ensures forall i :: 0 <= i < |block.rows| ==> AccountsOf(kind, block, includeTest)[i].cid == block.rows[i].cid
  {
  }

  lemma BlocksAreFresh(st: State, req: Request, plan: Plan)
    requires RowsUnique(plan) && PlanSound(st, req, plan)
    ensures Fresh(ForPlan(
      (if plan.iaa.Some? then AccountsOf(Iaa, plan.iaa.value, req.includeTest) else [])
      + (if plan.iap.Some? then AccountsOf(Iap, plan.iap.value, req.includeTest) else [])))
  {
    hide PlanSound, CidsUnique, Fresh, ForPlan, Cids, AccountsOf;
    var first := if plan.iaa.Some? then AccountsOf(Iaa, plan.iaa.value, req.includeTest) else [];
    var second := if plan.iap.Some? then AccountsOf(Iap, plan.iap.value, req.includeTest) else [];
    if plan.iaa.Some? {
      AccountsHaveCids(Iaa, plan.iaa.value, req.includeTest);
    }
    if plan.iap.Some? {
      AccountsHaveCids(Iap, plan.iap.value, req.includeTest);
    }
    if plan.iaa.Some? && plan.iap.Some? {
      BlocksAreApart(st, req, plan);
      ApartStaysUnique(plan.iaa.value.rows, plan.iap.value.rows);
      UniqueRowsAreFresh(plan.iaa.value.rows + plan.iap.value.rows, first + second);
    } else if plan.iaa.Some? {
      UniqueRowsAreFresh(plan.iaa.value.rows, first + second);
    } else if plan.iap.Some? {
      UniqueRowsAreFresh(plan.iap.value.rows, first + second);
    } else {
      NoRowsAreUnique();
      UniqueRowsAreFresh([], first + second);
    }
  }

  lemma NoRowsAreUnique()
    ensures CidsUnique([])
  {
  }

  // ---- the plan and the form ----

  /** The plan is built from what the service assigned. */
  ghost predicate BuiltFrom(input: PlanInput, st: State, req: Request) {
    && Assigned(Assign(st, req).1) && Fresh(input.accounts)
    && input.accounts == ForPlan(Assign(st, req).1.accounts) && input.links == req.links
  }

  lemma AssignedIsSupplied(input: PlanInput, st: State, req: Request)
    requires BuiltFrom(input, st, req)
    ensures Supplied(input.accounts, input.links)
    ensures Wanted(input.accounts, LinkSet(input.links)) == input.accounts
  {
    hide Assign, AllOf, Fresh, Wanted;
    AssignedIsInParts(st, req);
    var a: nat, b: nat :| InParts(input.accounts, LinkSet(req.links), a, b);
    assert Provides(input.accounts, input.links, a, b);
    var x, y, z := input.accounts[..a], input.accounts[a..b], input.accounts[b..];
    assert x + y + z == input.accounts;
    WantedIsKept(x, y, z, LinkSet(input.links));
  }

  /** Assigned accounts pass the checks exactly with a link, materials, and a clock that has not gone back a day. */
  lemma AssignedPlansAreValid(input: PlanInput, st: State, req: Request, made: Time, now: Time)
    requires BuiltFrom(input, st, req)
    ensures Build(input).Err? <==> input.materialCount < 0
    ensures Build(input).Ok? ==>
      (Validate(Build(input).value, CidConfigs(input.accounts, made), now) == [] <==>
        LinkSet(input.links) != map[] && input.materialCount > 0 && now >= made - DAY)
  {
    hide BuiltFrom, Supplied, Build, Validate, CidConfigs, LinkSet;
    AssignedIsSupplied(input, st, req);
    SuppliedPlansAreValid(input, made, now);
  }

  /** Assigned accounts become a form under the same exact condition as allocated ones, and the form has all of them. */
  lemma AssignedPlansCanBeSubmitted(input: PlanInput, st: State, req: Request, made: Time)
    requires BuiltFrom(input, st, req) && Build(input).Ok?
    ensures SubmittedExactly(input, made)
    ensures HaveLinks(input.accounts)
    ensures var form := BuildForm(Build(input).value, CidConfigs(input.accounts, made));
      form.Ok? ==> form.value.cidRows == ExpectedRows(input.accounts, input.platform, input.dramaName)
  {
    hide BuiltFrom, Supplied, Build, CidConfigs, LinkSet, Wanted, BuildForm, HaveLinks, ExpectedRows, Usable, Trimmed;
    AssignedIsSupplied(input, st, req);
    SuppliedPlansCanBeSubmitted(input, made);
  }

  // ---- a block that repeats a CID ----

  function PaidRow(number: int, cid: string): AccountRow {
    AccountRow(number, "account", cid, "B1-9.9", true, false, "")
  }

  /** Three free rows, two of them with one CID. */
  function RepeatingSheets(): Sheets {
    Sheets([], [PaidRow(2, "c"), PaidRow(3, "c"), PaidRow(4, "d")])
  }

  /** A request for the 9.9 link whose uses are recorded. */
  function PaidRequest(dryRun: bool): Request {
    Request("drama", map["9.9" := "link"], {}, dryRun, false, Some("t"), Some(1), None)
  }

  lemma PaidGroups()
    ensures Groups(IapPatterns(PaidTypes(PaidRequest(true).links))) == Repeat("B1-9.9", 3)
  {
    IapGroups(PaidTypes(PaidRequest(true).links));
  }

  lemma RepeatingBlockIsFound(taken: set<string>)
    requires taken == {}
    ensures FindBlock(RepeatingSheets().iap, Repeat("B1-9.9", 3), taken) == Some(Block(RepeatingSheets().iap, None))
  {
    var rows, groups := RepeatingSheets().iap, Repeat("B1-9.9", 3);
    assert rows[0..3] == rows;
    assert MatchesAt(rows, 0, groups, taken);
    FirstWindowIsUnique(rows, groups, taken, 0, Some(0), FindStart(rows, groups, taken, 0));
  }

  /** The preview succeeds, and the real run ends as a partial write. */
  lemma RepeatedCidIsNoticedLate()
    ensures var st := State(RepeatingSheets(), Some({}));
      && Assign(st, PaidRequest(true)).1.status == Status.DryRun
      && Assign(st, PaidRequest(false)).1.status == PartialWrite
  {
    hide FindBlock, Groups, IapPatterns, Commit, Repeat;
    var st, req := State(RepeatingSheets(), Some({})), PaidRequest(true);
    PaidGroups();
    var reserved := UsedToday(st, req) + {} + {} + Occupied(st.sheets.iap);
    assert UsedToday(st, req) == {} && Occupied(st.sheets.iap) == {};
    RepeatingBlockIsFound(reserved);
    var block := Block(RepeatingSheets().iap, None);
    assert PlanIap(st, req, None) == Planned(block, []);
    assert MakePlan(st, req) == Plan(None, Some(block), [], [], None);
    var accounts := AccountsOf(Iap, block, false);
    assert Assign(st, req).1 == Outcome(Status.DryRun, accounts);
    assert CidList(accounts)[0] == CidList(accounts)[1];
    AccountGuarantees.PreviewPredictsRealRun(st, req);
  }
}
