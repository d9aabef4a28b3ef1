/** What validation and the form look at, for any plan and any configurations: every issue and every refusal. */
module PlanChecks {
  import opened Basics
  import opened Sorting
  import opened Text
  import opened AccountSheets
  import opened AccountAllocation
  import opened MaterialGroups
  import opened Plans
  import opened PlanGuarantees

  // ---- configurations ----

  /** The configuration counts for the CID at this time. */
  predicate Counts(cid: string, config: CidConfig, now: Time) {
    && config.cid == cid && Strip(config.subject) != "" && Strip(config.deliveryType) != "" && config.enabled
    && config.effectiveFrom.At? && config.effectiveFrom.time <= now
    && (config.effectiveTo == Moment.Missing || (config.effectiveTo.At? && now <= config.effectiveTo.time))
  }

  lemma OneCounts(config: CidConfig, cid: string, now: Time)
    ensures ValidConfigsFor(cid, [config], now) == if Counts(cid, config, now) then [config] else []
    ensures ConfigsOf(cid, [config]) == if config.cid == cid then [config] else []
  {
    hide Strip;
    assert [config][1..] == [];
  }

  /** Selected are the configurations that count for the CID, in order. */
  lemma {:induction false} CountingAreSelected(x: seq<CidConfig>, config: CidConfig, y: seq<CidConfig>, cid: string,
                                               now: Time)
    ensures ValidConfigsFor(cid, x + [config] + y, now)
      == ValidConfigsFor(cid, x, now) + (if Counts(cid, config, now) then [config] else [])
        + ValidConfigsFor(cid, y, now)
    ensures ConfigsOf(cid, x + [config] + y)
      == ConfigsOf(cid, x) + (if config.cid == cid then [config] else []) + ConfigsOf(cid, y)
  {
    hide ValidFor, Counts;
    var all := x + [config] + y;
    if x == [] {
      OneCounts(config, cid, now);
      assert all == [config] + y && all[0] == config && all[1..] == y;
    } else {
      assert all[0] == x[0] && all[1..] == x[1..] + [config] + y;
      CountingAreSelected(x[1..], config, y, cid, now);
    }
  }

  // ---- issues ----

  /** What is wrong with one CID of a plan. */
  ghost predicate CidIssue(issue: Issue, cid: string, configs: seq<CidConfig>, now: Time) {
    var valid := ValidConfigsFor(cid, configs, now);
    match issue
    case CidConfigMissing(c, n) => c == cid && n == |valid| != 1
    case DouyinAccountEmpty(c) => c == cid && |valid| == 1 && Strip(valid[0].douyinAccount) == ""
    case PresetIncomplete(c, missing) =>
      && c == cid && |valid| == 1 && missing != []
      && missing == (if Strip(valid[0].adPreset) == "" then ["ad_preset"] else [])
        + (if Strip(valid[0].accountOpenPreset) == "" then ["account_open_preset"] else [])
    case _ => false
  }

  lemma OneCidsIssues(cid: string, configs: seq<CidConfig>, now: Time, issue: Issue)
    ensures issue in CidIssues(cid, configs, now) <==> CidIssue(issue, cid, configs, now)
  {
    hide Strip, ValidConfigsFor;
    assert "ad_preset" != "account_open_preset";
  }

  lemma {:induction false} AllCidsIssues(cids: seq<string>, configs: seq<CidConfig>, now: Time, issue: Issue)
    ensures issue in AllCidIssues(cids, configs, now) <==>
      exists i :: 0 <= i < |cids| && CidIssue(issue, cids[i], configs, now)
    decreases |cids|
  {
    hide CidIssues, CidIssue;
    if cids != [] {
      var rest := cids[1..];
      OneCidsIssues(cids[0], configs, now, issue);
      AllCidsIssues(rest, configs, now, issue);
      assert forall i :: 0 < i < |cids| ==> cids[i] == rest[i - 1];
      assert forall i :: 0 <= i < |rest| ==> rest[i] == cids[i + 1];
    }
  }

  /** Some CID of the plan delivers the paid type by its only counting configuration. */
  ghost predicate Delivers(spec: PlanSpec, configs: seq<CidConfig>, now: Time, role: string, linkType: string) {
    exists i :: 0 <= i < |spec.accountCids|
      && |ValidConfigsFor(spec.accountCids[i], configs, now)| == 1
      && ValidConfigsFor(spec.accountCids[i], configs, now)[0].deliveryType in {role, linkType}
  }

  /** Every issue a plan can have, and when it has it. */
  ghost predicate IssueOf(issue: Issue, spec: PlanSpec, configs: seq<CidConfig>, now: Time) {
    match issue
    case LinkSetEmpty => spec.linkSet == map[]
    case TemplateAccountMismatch(linkType) =>
      || (linkType == "9.9" && "9.9" in spec.linkSet && !Delivers(spec, configs, now, "B1-9.9", "9.9"))
      || (linkType == "2.9" && "2.9" in spec.linkSet && !Delivers(spec, configs, now, "B2-2.9", "2.9"))
    case MaterialCountInvalid => spec.materialGroups == None || spec.expectedProjectCount <= 0
    case TaskNameInvalid =>
      spec.taskName == ""
      || (!Contains(spec.taskName, "ubr") && !Contains(spec.taskName, "bxr") && !Contains(spec.taskName, "cbo"))
    case _ => exists i :: 0 <= i < |spec.accountCids| && CidIssue(issue, spec.accountCids[i], configs, now)
  }

  lemma CoverageIsDelivery(spec: PlanSpec, configs: seq<CidConfig>, now: Time)
    ensures Covered("9.9", spec.accountCids, configs, now) <==> Delivers(spec, configs, now, "B1-9.9", "9.9")
    ensures Covered("2.9", spec.accountCids, configs, now) <==> Delivers(spec, configs, now, "B2-2.9", "2.9")
  {
    hide ValidConfigsFor;
    var cids := spec.accountCids;
    forall linkType, role | role == if linkType == "9.9" then "B1-9.9" else "B2-2.9"
      ensures linkType in {"9.9", "2.9"} ==>
        (Covered(linkType, cids, configs, now) <==> Delivers(spec, configs, now, role, linkType))
    {
      assert linkType in {"9.9", "2.9"} ==> RolesOf(linkType) + {linkType} == {role, linkType};
      if linkType in {"9.9", "2.9"} && Covered(linkType, cids, configs, now) {
        var cid :| cid in cids && |ValidConfigsFor(cid, configs, now)| == 1
          && ValidConfigsFor(cid, configs, now)[0].deliveryType in RolesOf(linkType) + {linkType};
        var i :| 0 <= i < |cids| && cids[i] == cid;
        assert Delivers(spec, configs, now, role, linkType);
      }
    }
  }

  /** Validation reports exactly the issues a plan has. */
  lemma ValidationIsExact(spec: PlanSpec, configs: seq<CidConfig>, now: Time, issue: Issue)
    ensures issue in Validate(spec, configs, now) <==> IssueOf(issue, spec, configs, now)
  {
    hide AllCidIssues, Covered, Delivers, Contains, CidIssue, CidIssues;
    AllCidsIssues(spec.accountCids, configs, now, issue);
    CoverageIsDelivery(spec, configs, now);
    NoOtherCidIssues(spec.accountCids, configs, now, issue);
  }

  lemma NoOtherCidIssues(cids: seq<string>, configs: seq<CidConfig>, now: Time, issue: Issue)
    ensures issue in AllCidIssues(cids, configs, now) ==>
      issue.CidConfigMissing? || issue.DouyinAccountEmpty? || issue.PresetIncomplete?
  {
    AllCidsIssues(cids, configs, now, issue);
  }

  // ---- the form ----

  /** What a CID must have for its form row: one configuration, of a type the plan has, with promotion content that
      ends with the drama name, and complete accounts. */
  ghost predicate RowReady(spec: PlanSpec, configs: seq<CidConfig>, cid: string) {
    var matches := ConfigsOf(cid, configs);
    && |matches| == 1
    && exists linkType :: linkType in {"IAA", "9.9", "2.9"} && RowReadyFor(spec, matches[0], linkType)
  }

  /** The delivery types of each link type: the type itself, or a role of it. */
  predicate DeliversFor(deliveryType: string, linkType: string) {
    || deliveryType == linkType
    || (linkType == "IAA" && deliveryType in {"B1", "B4", "B7", "BX"})
    || (linkType == "9.9" && deliveryType == "B1-9.9")
    || (linkType == "2.9" && deliveryType == "B2-2.9")
  }

  predicate RowReadyFor(spec: PlanSpec, config: CidConfig, linkType: string) {
    && DeliversFor(config.deliveryType, linkType)
    && linkType in spec.linkSet && linkType in spec.promotionConfigs
    && Strip(spec.promotionConfigs[linkType]) != ""
    && EndsWith(Strip(spec.promotionConfigs[linkType]), "-" + spec.dramaName)
    && Strip(config.douyinAccount) != "" && Strip(config.accountOpenPreset) != "" && Strip(config.adPreset) != ""
  }

  /** The form row of a CID that is ready. */
  predicate RowOf(row: CidFormRow, spec: PlanSpec, config: CidConfig, cid: string) {
    && row.cid == cid && row.linkType in spec.promotionConfigs && DeliversFor(config.deliveryType, row.linkType)
    && row.linkType in {"IAA", "9.9", "2.9"}
    && row.douyinAccount == Strip(config.douyinAccount)
    && row.accountOpenPreset == Strip(config.accountOpenPreset) && row.adPreset == Strip(config.adPreset)
    && row.promotionContent == Strip(spec.promotionConfigs[row.linkType])
  }

  lemma LinkOfTypeIsDelivered(deliveryType: string, linkType: string)
    requires linkType in {"IAA", "9.9", "2.9"}
    ensures LinkOfDelivery(deliveryType) == Some(linkType) <==> DeliversFor(deliveryType, linkType)
    ensures LinkOfDelivery(deliveryType).Some? ==> LinkOfDelivery(deliveryType).value in {"IAA", "9.9", "2.9"}
  {
  }

  lemma FormRowIsExact(spec: PlanSpec, configs: seq<CidConfig>, cid: string)
    ensures var r := FormRow(spec, configs, cid);
      && (r.Ok? <==> RowReady(spec, configs, cid))
      && (r.Ok? ==> RowOf(r.value, spec, ConfigsOf(cid, configs)[0], cid))
      && (r.Err? ==> r.error == Invalid)
  {
    hide Strip, EndsWith, ConfigsOf, LinkOfDelivery, DeliversFor;
    BlankPromotion();
    var matches := ConfigsOf(cid, configs);
    if |matches| == 1 {
      forall linkType | linkType in {"IAA", "9.9", "2.9"}
        ensures LinkOfDelivery(matches[0].deliveryType) == Some(linkType)
            <==> DeliversFor(matches[0].deliveryType, linkType)
      {
        LinkOfTypeIsDelivered(matches[0].deliveryType, linkType);
      }
      LinkOfTypeIsDelivered(matches[0].deliveryType, "IAA");
      if FormRow(spec, configs, cid).Ok? {
        assert RowReadyFor(spec, matches[0], LinkOfDelivery(matches[0].deliveryType).value);
      }
      if linkType :| linkType in {"IAA", "9.9", "2.9"} && RowReadyFor(spec, matches[0], linkType) {
        assert LinkOfDelivery(matches[0].deliveryType) == Some(linkType);
        assert FormRow(spec, configs, cid).Ok?;
      }
    }
  }

  lemma BlankPromotion()
    ensures Strip("") == ""
  {
  }

  /** A plan is ready for its form: some CID, every CID ready, usable materials, six usable titles, and groups. */
  ghost predicate FormReady(spec: PlanSpec, configs: seq<CidConfig>) {
    && spec.accountCids != []
    && (forall i :: 0 <= i < |spec.accountCids| ==> RowReady(spec, configs, spec.accountCids[i]))
    && Usable(spec.materialIds) && Usable(spec.titlePackages) && |Trimmed(spec.titlePackages)| == 6
    && spec.materialGroups.Some?
  }

  /** Any plan becomes a form exactly when it is ready; the form then has a row for each CID, in order. */
  lemma FormIsExact(spec: PlanSpec, configs: seq<CidConfig>)
    ensures var r := BuildForm(spec, configs);
      && (r.Ok? <==> FormReady(spec, configs))
      && (r.Err? ==> r.error == Invalid)
      && (r.Ok? ==>
        && |r.value.cidRows| == |spec.accountCids|
        && forall i :: 0 <= i < |spec.accountCids| ==>
          && |ConfigsOf(spec.accountCids[i], configs)| == 1
          && RowOf(r.value.cidRows[i], spec, ConfigsOf(spec.accountCids[i], configs)[0], spec.accountCids[i]))
  {
    hide FormRow, FormRows, Trimmed, RowReady, RowOf, ConfigsOf;
    RowsAddUp(spec, configs, spec.accountCids);
    forall i | 0 <= i < |spec.accountCids|
      ensures FormRow(spec, configs, spec.accountCids[i]).Ok? <==> RowReady(spec, configs, spec.accountCids[i])
      ensures FormRow(spec, configs, spec.accountCids[i]).Ok? ==>
        && |ConfigsOf(spec.accountCids[i], configs)| == 1
        && RowOf(FormRow(spec, configs, spec.accountCids[i]).value, spec,
            ConfigsOf(spec.accountCids[i], configs)[0], spec.accountCids[i])
    {
      FormRowIsExact(spec, configs, spec.accountCids[i]);
      ReadyHasConfig(spec, configs, spec.accountCids[i]);
    }
  }

  lemma ReadyHasConfig(spec: PlanSpec, configs: seq<CidConfig>, cid: string)
    ensures RowReady(spec, configs, cid) ==> |ConfigsOf(cid, configs)| == 1
  {
  }

  // ---- routing any accounts ----

  predicate IsOf(account: PlanAccount, roles: set<string>, cid: string) {
    account.role in roles && account.cid == cid
  }

  /** The non-empty CIDs of accounts with these roles, each once, in the order they first occur. */
  lemma {:induction false} RoutedByRoles(x: seq<PlanAccount>, y: seq<PlanAccount>, roles: set<string>)
    ensures Distinct(CidsByRoles(x + y, roles)) && CidsByRoles(x, roles) <= CidsByRoles(x + y, roles)
    ensures forall cid :: cid in CidsByRoles(x + y, roles) <==>
      cid != "" && exists i :: 0 <= i < |x + y| && IsOf((x + y)[i], roles, cid)
    decreases |x + y|
  {
    var all := x + y;
    if all != [] {
      var n := |all| - 1;
      var earlier := all[..n];
      if y == [] {
        assert x == all;
        RoutedByRoles(x[..n], [], roles);
        assert x[..n] + [] == earlier;
      } else {
        assert earlier == x + y[..|y| - 1];
        RoutedByRoles(x, y[..|y| - 1], roles);
      }
      forall cid ensures cid in CidsByRoles(all, roles) <==>
        cid != "" && exists i :: 0 <= i < |all| && IsOf(all[i], roles, cid)
      {
        if cid != "" && IsOf(all[n], roles, cid) {
          assert cid in CidsByRoles(all, roles);
        }
        if i :| 0 <= i < n && IsOf(all[i], roles, cid) {
          assert IsOf(earlier[i], roles, cid);
        }
        if cid in CidsByRoles(earlier, roles) {
          var i :| 0 <= i < |earlier| && IsOf(earlier[i], roles, cid);
          assert IsOf(all[i], roles, cid);
        }
      }
    }
  }

  /** A B4 account, whatever follows the dash. */
  predicate B4(account: PlanAccount) {
    account.role == "B4" || (|account.role| >= 3 && account.role[..3] == "B4-")
  }

  /** The account at `k` is the first of those. */
  predicate FirstAt(accounts: seq<PlanAccount>, k: nat, test: bool) {
    && k < |accounts| && B4(accounts[k]) && (test ==> accounts[k].isTest)
    && forall j :: 0 <= j < k ==> !(B4(accounts[j]) && (test ==> accounts[j].isTest))
  }

  lemma {:induction false} FirstAccounts(accounts: seq<PlanAccount>)
    ensures match FirstTest(accounts)
      case None => forall k :: 0 <= k < |accounts| ==> !(B4(accounts[k]) && accounts[k].isTest)
      case Some(account) => exists k: nat :: FirstAt(accounts, k, true) && accounts[k] == account
    ensures match FirstB4(accounts)
      case None => forall k :: 0 <= k < |accounts| ==> !B4(accounts[k])
      case Some(account) => exists k: nat :: FirstAt(accounts, k, false) && accounts[k] == account
  {
    if accounts != [] {
      var rest := accounts[1..];
      FirstAccounts(rest);
      SameB4(accounts[0]);
      assert forall i :: 0 < i < |accounts| ==> accounts[i] == rest[i - 1];
      if FirstTest(rest).Some? {
        var k: nat :| FirstAt(rest, k, true) && rest[k] == FirstTest(rest).value;
        assert accounts[k + 1] == rest[k];
        assert (IsB4(accounts[0].role) && accounts[0].isTest) || FirstAt(accounts, k + 1, true);
      }
      if FirstB4(rest).Some? {
        var k: nat :| FirstAt(rest, k, false) && rest[k] == FirstB4(rest).value;
        assert accounts[k + 1] == rest[k];
        assert IsB4(accounts[0].role) || FirstAt(accounts, k + 1, false);
      }
      assert B4(accounts[0]) && accounts[0].isTest ==> FirstAt(accounts, 0, true);
      assert B4(accounts[0]) ==> FirstAt(accounts, 0, false);
    }
  }

  lemma SameB4(account: PlanAccount)
    ensures IsB4(account.role) <==> B4(account)
  {
  }

  /** The account whose CID tests go to: the first marked B4 account, or the first B4 account when none is marked. */
  ghost predicate ForTesting(accounts: seq<PlanAccount>, k: nat) {
    || FirstAt(accounts, k, true)
    || (FirstAt(accounts, k, false) && forall j :: 0 <= j < |accounts| ==> !(B4(accounts[j]) && accounts[j].isTest))
  }

  ghost predicate WithTesting(cids: seq<string>, byRoles: seq<string>, accounts: seq<PlanAccount>, k: nat) {
    && ForTesting(accounts, k) && k < |accounts|
    && cids == byRoles + if accounts[k].cid == "" || accounts[k].cid in byRoles then [] else [accounts[k].cid]
  }

  ghost predicate TestingAdded(cids: seq<string>, byRoles: seq<string>, accounts: seq<PlanAccount>) {
    exists k: nat :: WithTesting(cids, byRoles, accounts, k)
  }

  predicate HasB4(accounts: seq<PlanAccount>) {
    exists k :: 0 <= k < |accounts| && B4(accounts[k])
  }

  lemma TestingIsAdded(accounts: seq<PlanAccount>, byRoles: seq<string>)
    ensures if HasB4(accounts) then TestingAdded(WithTestAccount(byRoles, accounts), byRoles, accounts)
      else WithTestAccount(byRoles, accounts) == byRoles
  {
    hide B4, FirstTest, FirstB4;
    FirstAccounts(accounts);
    assert byRoles + [] == byRoles;
    if FirstTest(accounts).Some? {
      var k: nat :| FirstAt(accounts, k, true) && accounts[k] == FirstTest(accounts).value;
      assert WithTesting(WithTestAccount(byRoles, accounts), byRoles, accounts, k);
    } else if FirstB4(accounts).Some? {
      var k: nat :| FirstAt(accounts, k, false) && accounts[k] == FirstB4(accounts).value;
      assert WithTesting(WithTestAccount(byRoles, accounts), byRoles, accounts, k);
    }
  }

  /** The CIDs of one link type, for any accounts: those of its roles, and for IAA the one for testing, if wanted. */
  lemma RoutingIsExact(linkSet: map<string, string>, accounts: seq<PlanAccount>, includeTest: bool, linkType: string)
    requires linkType in linkSet
    ensures var (cids, byRoles) :=
        (Routed(linkSet, accounts, includeTest, linkType), CidsByRoles(accounts, RolesOf(linkType)));
      if linkType == "IAA" && includeTest && HasB4(accounts) then TestingAdded(cids, byRoles, accounts)
      else cids == byRoles
    ensures RolesOf("IAA") == {"B1", "B4", "B7", "BX"} && RolesOf("9.9") == {"B1-9.9"} && RolesOf("2.9") == {"B2-2.9"}
  {
    hide CidsByRoles, HasB4, TestingAdded, WithTestAccount;
    TestingIsAdded(accounts, CidsByRoles(accounts, RolesOf(linkType)));
  }

  // ---- the test mark of an allocation ----

  /** Accounts stand in the rows of the two blocks; on request the test row's account is marked as well. */
  lemma AllocationMarks(links: map<string, string>, includeTest: bool, rows: Sheet)
    requires Allocate(links, includeTest, rows).Some?
    ensures var accounts := Allocate(links, includeTest, rows).value;
      var iaa := if "IAA" in links then FindBlock(rows, Groups(IAA_BLOCK), {}).value else Block([], None);
      var iap := if RequiredIap(links) == {} then [] else
        FindBlock(rows, Groups(IapPatterns(RequiredIap(links))), Cids(iaa.rows)).value.rows;
      && |accounts| == |iaa.rows + iap|
      && forall k :: 0 <= k < |accounts| ==>
        var row := (iaa.rows + iap)[k];
        && accounts[k].role == row.group && accounts[k].cid == row.cid
        && (accounts[k].isTest <==>
          row.isTest || (includeTest && iaa.testRow.Some? && row.group == "B4" && row.cid == iaa.testRow.value.cid))
  {
    hide FindBlock, Groups, IapPatterns, Cids;
  }

  // ---- each CID once ----

  /** The places where a value stands for the first time, in order. */
  ghost predicate Firsts(values: seq<string>, places: seq<nat>) {
    && (forall i, j :: 0 <= i < j < |places| ==> places[i] < places[j])
    && forall k: nat :: k in places <==> k < |values| && values[k] !in values[..k]
  }

  lemma FirstsAppend(values: seq<string>, last: string, places: seq<nat>)
    requires Firsts(values, places)
    ensures Firsts(values + [last], if last in values then places else places + [|values|])
  {
    var all := values + [last];
    assert forall k :: 0 <= k < |values| ==> all[k] == values[k] && all[..k] == values[..k];
    assert all[..|values|] == values;
    assert forall i :: 0 <= i < |places| ==> places[i] in places;
  }

  lemma {:induction false} DroppingKeepsMembers(values: seq<string>)
    ensures forall v :: v in Dedupe(values) <==> v in values
    decreases |values|
  {
    if values != [] {
      DroppingKeepsMembers(values[..|values| - 1]);
      assert values == values[..|values| - 1] + [values[|values| - 1]];
    }
  }

  /** Without repetitions a list is what stands in it for the first time, in order. */
  lemma {:induction false} DroppingKeepsFirsts(values: seq<string>) returns (places: seq<nat>)
    ensures Firsts(values, places) && |Dedupe(values)| == |places|
    ensures forall i :: 0 <= i < |places| ==> places[i] < |values| && Dedupe(values)[i] == values[places[i]]
    decreases |values|
  {
    hide Firsts;
    places := [];
    if values == [] {
      NoFirsts();
    } else {
      var (earlier, last) := (values[..|values| - 1], values[|values| - 1]);
      places := DroppingKeepsFirsts(earlier);
      assert values == earlier + [last];
      FirstsAppend(earlier, last, places);
      DroppingKeepsMembers(earlier);
      places := if last in earlier then places else places + [|earlier|];
    }
  }

  lemma NoFirsts()
    ensures Firsts([], [])
  {
  }

  /** One configuration for each CID, from the first account that has it, in order. */
  lemma {:induction false} ConfigsAreOfFirsts(accounts: seq<PlanAccount>, now: Time) returns (places: seq<nat>)
    ensures Firsts(CidsIn(accounts), places) && |CidConfigs(accounts, now)| == |places|
    ensures forall i :: 0 <= i < |places| ==>
      places[i] < |accounts| && CidConfigs(accounts, now)[i] == ConfigFor(accounts[places[i]], now)
    decreases |accounts|
  {
    hide Firsts;
    places := [];
    if accounts == [] {
      NoFirsts();
    } else {
      var (earlier, last) := (accounts[..|accounts| - 1], accounts[|accounts| - 1]);
      places := ConfigsAreOfFirsts(earlier, now);
      assert CidsIn(accounts) == CidsIn(earlier) + [last.cid];
      FirstsAppend(CidsIn(earlier), last.cid, places);
      places := if last.cid in CidsIn(earlier) then places else places + [|earlier|];
    }
  }
}
