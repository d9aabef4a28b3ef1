/** What the caller's check of the accounts decides: nothing is written, counted or appended against it. */
module AccountValidation {
  import opened Basics
  import opened Sorting
  import opened AccountSheets
  import opened AccountAllocation
  import opened AccountAssignment
  import opened AccountAssignmentProofs
  import opened AccountGuarantees
  import PlanGuarantees

  // ---- refused accounts ----

  /** The rows there were are as they were, and the rows added hold no name. */
  ghost predicate NamesNoRow(before: Sheet, after: Sheet) {
    && |before| <= |after| && after[..|before|] == before
    && forall i :: |before| <= i < |after| ==> after[i].dramaName == ""
  }

  lemma AppendingNamesNoRow(before: Sheet, added: Sheet)
    requires Blank(added)
    ensures NamesNoRow(before, before + added) && NamesNoRow(before, before)
  {
  }

  /**
   * Whatever the sheets, the uses and the check: accounts are previewed, confirmed or partly written only when the
   * check passes them; accounts it refuses end in a conflict, name no row and record no use.
   */
  lemma ValidatorDecides(st: State, req: Request, v: Validator)
    requires req.validator == Some(v)
    ensures var (after, outcome) := Assign(st, req);
      && (outcome.status in {Status.DryRun, Confirmed, PartialWrite} ==> v(outcome.accounts))
      && (!v(outcome.accounts) && outcome.accounts != [] ==> outcome.status == Status.Conflict)
      && (!v(outcome.accounts) ==>
        && NamesNoRow(st.sheets.iaa, after.sheets.iaa) && NamesNoRow(st.sheets.iap, after.sheets.iap)
        && after.uses == st.uses)
  {
    hide MakePlan, AllAccounts, Blocks, Blank, NamesNoRow, StillAvailable, WriteBlocks, Record, CidList;
    var plan := MakePlan(st, req);
    AddedRowsAreBlank(st, req);
    AppendingNamesNoRow(st.sheets.iaa, plan.iaaAdded);
    AppendingNamesNoRow(st.sheets.iap, plan.iapAdded);
    AccountGuarantees.FailuresAreRefusals(st, req);
  }

  // ---- refused copies ----

  lemma PlannedCopiesAreAccepted(kind: Kind, rows: Sheet, groups: seq<string>, definition: Patterns,
                                 reserved: set<string>, used: set<string>, req: Request, v: Validator)
    requires req.validator == Some(v)
    ensures var planned := PlanBlock(kind, rows, groups, definition, reserved, used, req);
      planned.Planned? && planned.added != [] ==>
        CopyAccepted(kind, planned.block, planned.added, req.includeTest, v)
  {
    hide Groups, LatestTemplate, AccountsOf, Appended, FindBlock;
    var size := |Groups(definition)|;
    if FindBlock(rows, groups, reserved).None? && LatestTemplate(rows, Groups(definition), used, |rows| - size).Some? {
      var added := Appended(MaxNumber(rows), LatestTemplate(rows, Groups(definition), used, |rows| - size).value);
      if FindBlock(added, groups, used).Some? {
        FoundBlockIsSound(added, groups, used, used);
      }
    }
  }

  /** Each account stands in one of the rows from `from` on. */
  ghost predicate InRowsFrom(accounts: seq<Account>, rows: Sheet, from: nat) {
    forall k :: 0 <= k < |accounts| ==> HasRowFrom(accounts[k], rows, from)
  }

  ghost predicate HasRowFrom(account: Account, rows: Sheet, from: nat) {
    exists i :: from <= i < |rows| && rows[i].rowNumber == account.rowNumber && rows[i].cid == account.cid
  }

  /** Rows were appended to the sheet only for accounts that the check passes and that stand in those rows. */
  ghost predicate AppendedFor(before: Sheet, after: Sheet, v: Validator) {
    |after| > |before| ==> exists accounts :: v(accounts) && InRowsFrom(accounts, after, |before|)
  }

  lemma CopiesStandInRows(kind: Kind, before: Sheet, added: Sheet, block: Block, includeTest: bool, after: Sheet)
    requires forall i :: 0 <= i < |block.rows| ==> block.rows[i] in added
    requires Kept(before + added, after)
    ensures InRowsFrom(AccountsOf(kind, block, includeTest), after, |before|)
  {
    var accounts := AccountsOf(kind, block, includeTest);
    forall k | 0 <= k < |accounts| ensures HasRowFrom(accounts[k], after, |before|) {
      var i :| 0 <= i < |added| && added[i] == block.rows[k];
      assert (before + added)[|before| + i] == added[i];
      assert after[|before| + i].rowNumber == accounts[k].rowNumber;
    }
  }

  ghost predicate CopiesAccepted(plan: Plan, includeTest: bool, v: Validator) {
    && (plan.iaaAdded != [] ==> plan.iaa.Some? && CopyAccepted(Iaa, plan.iaa.value, plan.iaaAdded, includeTest, v))
    && (plan.iapAdded != [] ==> plan.iap.Some? && CopyAccepted(Iap, plan.iap.value, plan.iapAdded, includeTest, v))
  }

  ghost predicate CopyAccepted(kind: Kind, block: Block, added: Sheet, includeTest: bool, v: Validator) {
    v(AccountsOf(kind, block, includeTest)) && forall i :: 0 <= i < |block.rows| ==> block.rows[i] in added
  }

  lemma PlansAcceptCopies(st: State, req: Request, v: Validator)
    requires req.validator == Some(v)
    ensures CopiesAccepted(MakePlan(st, req), req.includeTest, v)
  {
    hide PlanBlock, Groups, Occupied, AccountsOf;
    var used := UsedToday(st, req);
    PlannedCopiesAreAccepted(
      Iaa, st.sheets.iaa, Groups(IAA_BLOCK), IAA_BLOCK, used + Occupied(st.sheets.iaa), used, req, v);
    var plan := MakePlan(st, req);
    var taken := if plan.iaa.Some? then Cids(plan.iaa.value.rows) else {};
    var reserved := used + taken + (if Wants(req.links, "IAA") then Occupied(st.sheets.iaa) else {})
        + Occupied(st.sheets.iap);
    PlannedCopiesAreAccepted(
      Iap, st.sheets.iap, Groups(IapPatterns(PaidTypes(req.links))), IAP_BLOCK, reserved, used + taken, req, v);
  }

  /** A sheet grows only by rows whose accounts the check has passed. */
  lemma AppendsOnlyAccepted(st: State, req: Request, v: Validator)
    requires req.validator == Some(v)
    ensures var after := Assign(st, req).0.sheets;
      AppendedFor(st.sheets.iaa, after.iaa, v) && AppendedFor(st.sheets.iap, after.iap, v)
  {
    hide MakePlan, Commit, Kept, AccountsOf, InRowsFrom, Accepts, AllAccounts, Blocks;
    var plan := MakePlan(st, req);
    PlansAcceptCopies(st, req, v);
    FinalKeepsAppended(st, req);
    var final := Assign(st, req).0.sheets;
    KeptLength(st.sheets.iaa + (if req.dryRun then [] else plan.iaaAdded), final.iaa);
    KeptLength(st.sheets.iap + (if req.dryRun then [] else plan.iapAdded), final.iap);
    if !req.dryRun && plan.iaaAdded != [] {
      CopiesStandInRows(Iaa, st.sheets.iaa, plan.iaaAdded, plan.iaa.value, req.includeTest, final.iaa);
    }
    if !req.dryRun && plan.iapAdded != [] {
      CopiesStandInRows(Iap, st.sheets.iap, plan.iapAdded, plan.iap.value, req.includeTest, final.iap);
    }
  }

  lemma KeptLength(before: Sheet, after: Sheet)
    requires Kept(before, after)
    ensures |after| == |before|
  {
  }

  lemma FinalKeepsAppended(st: State, req: Request)
    ensures var plan := MakePlan(st, req);
      var final := Assign(st, req).0.sheets;
      && Kept(st.sheets.iaa + (if req.dryRun then [] else plan.iaaAdded), final.iaa)
      && Kept(st.sheets.iap + (if req.dryRun then [] else plan.iapAdded), final.iap)
  {
    hide MakePlan, Commit, Kept, Accepts, AllAccounts;
    var plan := MakePlan(st, req);
    var after := AfterAppends(st, plan, req.dryRun);
    PlansAreSound(st, req);
    CommitKeeps(after, req, Blocks(plan), AllAccounts(Blocks(plan), req.includeTest));
    KeptItself(after.sheets.iaa);
    KeptItself(after.sheets.iap);
    assert st.sheets.iaa + [] == st.sheets.iaa && st.sheets.iap + [] == st.sheets.iap;
  }

  // ---- with and without the check ----

  lemma CheckOnlyRefusesBlocks(kind: Kind, rows: Sheet, groups: seq<string>, definition: Patterns,
                               reserved: set<string>, used: set<string>, req: Request)
    ensures var planned := PlanBlock(kind, rows, groups, definition, reserved, used, req);
      var unchecked := PlanBlock(kind, rows, groups, definition, reserved, used, req.(validator := None));
      && !unchecked.Refused?
      && (planned == unchecked || (planned.Refused? && unchecked.Planned? && (groups != [] ==> unchecked.added != [])))
  {
    hide LatestTemplate, Groups, AccountsOf, Appended, MaxNumber;
  }

  /** How planning with the check compares to planning without it. */
  ghost predicate OnlyRefuses(plan: Plan, unchecked: Plan) {
    && unchecked.failure in {None, Some(Unavailable)}
    && (|| plan == unchecked
        || (plan.failure == Some(Status.Conflict) && (unchecked.iaaAdded != [] || unchecked.iapAdded != [])))
  }

  lemma BlocksHaveGroups(links: map<string, string>)
    ensures Groups(IAA_BLOCK) != []
    ensures PaidTypes(links) != {} ==> Groups(IapPatterns(PaidTypes(links))) != []
  {
    PlanGuarantees.IaaGroups();
    PlanGuarantees.IapGroups(PaidTypes(links));
    assert |Repeat("B1-9.9", 3)| == |Repeat("B2-2.9", 3)| == 3;
  }

  lemma CheckOnlyRefusesPlans(st: State, req: Request)
    ensures OnlyRefuses(MakePlan(st, req), MakePlan(st, req.(validator := None)))
  {
    hide PlanBlock, Groups, Occupied, PaidTypes, Cids;
    var free := req.(validator := None);
    var used := UsedToday(st, req);
    assert UsedToday(st, free) == used;
    BlocksHaveGroups(req.links);
    CheckOnlyRefusesBlocks(Iaa, st.sheets.iaa, Groups(IAA_BLOCK), IAA_BLOCK, used + Occupied(st.sheets.iaa), used, req);
    var first := if Wants(req.links, "IAA") then PlanIaa(st, free) else NoBlock;
    var iaa := if first.Planned? then Some(first.block) else None;
    var taken := if iaa.Some? then Cids(iaa.value.rows) else {};
    var reserved := used + taken + (if Wants(req.links, "IAA") then Occupied(st.sheets.iaa) else {})
        + Occupied(st.sheets.iap);
    CheckOnlyRefusesBlocks(
      Iap, st.sheets.iap, Groups(IapPatterns(PaidTypes(req.links))), IAP_BLOCK, reserved, used + taken, req);
  }

  /** No rows were appended. */
  predicate NoneAppended(before: Sheets, after: Sheets) {
    |after.iaa| == |before.iaa| && |after.iap| == |before.iap|
  }

  /**
   * The check can only turn a success into a conflict: a preview that succeeds shows the accounts found without a
   * check, and one that finds no block finds none without a check either. Where no copies are needed, the accounts
   * found without a check are shown, and the check on them alone decides.
   */
  lemma CheckOnlyRefuses(st: State, req: Request, v: Validator)
    requires req.validator == Some(v)
    ensures var preview := Assign(st, req.(dryRun := true)).1;
      var unchecked := Assign(st, req.(dryRun := true, validator := None)).1;
      && unchecked.status in {Status.DryRun, Unavailable}
      && (preview.status == Status.DryRun ==> unchecked == preview)
      && (preview.status == Unavailable ==> unchecked.status == Unavailable)
      && preview.status in {Status.DryRun, Unavailable, Status.Conflict}
      && (NoneAppended(st.sheets, Assign(st, req.(dryRun := false, validator := None)).0.sheets) ==>
        preview ==
          if unchecked.status == Status.DryRun && !v(unchecked.accounts) then unchecked.(status := Status.Conflict)
          else unchecked)
  {
    hide MakePlan, AllAccounts, Blocks, Commit, Kept;
    var unchecked := req.(dryRun := false, validator := None);
    CheckOnlyRefusesPlans(st, req.(dryRun := true));
    PlanIgnoresDryRun(st, req.(validator := None), true);
    PlanIgnoresDryRun(st, req.(validator := None), false);
    FinalKeepsAppended(st, unchecked);
    var plan, final := MakePlan(st, unchecked), Assign(st, unchecked).0.sheets;
    KeptLength(st.sheets.iaa + plan.iaaAdded, final.iaa);
    KeptLength(st.sheets.iap + plan.iapAdded, final.iap);
  }
}
