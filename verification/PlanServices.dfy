/** The plan services as they run: loops over accounts, CIDs and configurations, proved against the plan functions. */
module PlanServices {
  import opened Basics
  import opened Sorting
  import opened Text
  import opened AccountSheets
  import opened AccountAllocation
  import opened MaterialGroups
  import opened Plans

  method AllocateAccounts(links: map<string, string>, includeTest: bool, rows: Sheet, now: Time)
    returns (allocation: Option<(seq<PlanAccount>, seq<CidConfig>)>)
    ensures allocation ==
      match Allocate(links, includeTest, rows)
      case None => None
      case Some(accounts) => Some((accounts, CidConfigs(accounts, now)))
  {
    hide FindBlock, Groups, IapPatterns, AccountsFrom, Cids, CidConfigs, Marked;
    NoRows();
    var iaa := Block([], None);
    if "IAA" in links {
      var found := FindBlockIn(rows, IAA_BLOCK, {});
      if found.None? {
        return None;
      }
      iaa := found.value;
    }
    var taken := Cids(iaa.rows);
    var accounts := AccountsFrom(iaa.rows);
    var required := RequiredIap(links);
    if required != {} {
      IapPatternsOf(required);
      var iap := FindIapBlock(rows, taken, required);
      if iap.None? {
        return None;
      }
      accounts := accounts + AccountsFrom(iap.value.rows);
    }
    assert accounts + [] == accounts;
    if includeTest && iaa.testRow.Some? {
      accounts := Marked(accounts, iaa.testRow.value);
    }
    var configs := MakeCidConfigs(accounts, now);
    allocation := Some((accounts, configs));
  }

  lemma NoRows()
    ensures AccountsFrom([]) == [] && Cids([]) == {}
  {
  }

  lemma IapPatternsOf(required: set<string>)
    ensures required != {} && required <= {"9.9", "2.9"} ==> IapPatterns(required) != []
  {
  }

  /** One configuration a CID; a CID seen before is skipped. */
  method MakeCidConfigs(accounts: seq<PlanAccount>, now: Time) returns (configs: seq<CidConfig>)
    ensures configs == CidConfigs(accounts, now)
  {
    var seen: set<string> := {};
    configs := [];
    for i := 0 to |accounts|
      invariant seen == Members(CidsIn(accounts[..i]))
      invariant configs == CidConfigs(accounts[..i], now)
    {
      var account := accounts[i];
      assert accounts[..i + 1][..i] == accounts[..i];
      assert CidsIn(accounts[..i + 1]) == CidsIn(accounts[..i]) + [account.cid];
      MembersAppend(CidsIn(accounts[..i]), account.cid);
      if account.cid !in seen {
        seen := seen + {account.cid};
        configs := configs + [ConfigFor(account, now)];
      }
    }
    assert accounts[..|accounts|] == accounts;
  }

  method CollectCids(accounts: seq<PlanAccount>, roles: set<string>) returns (cids: seq<string>)
    ensures cids == CidsByRoles(accounts, roles)
  {
    cids := [];
    var seen: set<string> := {};
    for i := 0 to |accounts|
      invariant seen == Members(cids) && cids == CidsByRoles(accounts[..i], roles)
    {
      var account := accounts[i];
      assert accounts[..i + 1][..i] == accounts[..i];
      if account.role in roles && account.cid != "" && account.cid !in seen {
        MembersAppend(cids, account.cid);
        seen := seen + {account.cid};
        cids := cids + [account.cid];
      }
    }
    assert accounts[..|accounts|] == accounts;
  }

  method AppendTestAccount(cids: seq<string>, accounts: seq<PlanAccount>) returns (all: seq<string>)
    ensures all == WithTestAccount(cids, accounts)
  {
    var marked, first := None, None;
    for i := 0 to |accounts|
      invariant marked.None? ==> FirstTest(accounts) == FirstTest(accounts[i..])
      invariant marked.Some? ==> FirstTest(accounts) == marked
      invariant first.None? ==> FirstB4(accounts) == FirstB4(accounts[i..])
      invariant first.Some? ==> FirstB4(accounts) == first
    {
      assert accounts[i..][1..] == accounts[i + 1..];
      if IsB4(accounts[i].role) {
        if first.None? {
          first := Some(accounts[i]);
        }
        if marked.None? && accounts[i].isTest {
          marked := Some(accounts[i]);
        }
      }
    }
    var account := if marked.Some? then marked else first;
    if account.None? {
      return cids;
    }
    all := if account.value.cid != "" && account.value.cid !in cids then cids + [account.value.cid] else cids;
  }

  /** The CIDs to use, by link type. */
  method Route(linkSet: map<string, string>, accounts: seq<PlanAccount>, includeTest: bool)
      returns (routes: map<string, seq<string>>)
    requires forall t :: t in linkSet ==> t in LINK_TYPES
    ensures routes.Keys == linkSet.Keys
    ensures forall t :: t in routes ==> routes[t] == Routed(linkSet, accounts, includeTest, t)
  {
    routes := map[];
    if "IAA" in linkSet {
      var cids := CollectCids(accounts, IAA_ROLES);
      if includeTest {
        cids := AppendTestAccount(cids, accounts);
      }
      routes := routes["IAA" := cids];
    }
    if "9.9" in linkSet {
      var cids := CollectCids(accounts, {"B1-9.9"});
      routes := routes["9.9" := cids];
    }
    if "2.9" in linkSet {
      var cids := CollectCids(accounts, {"B2-2.9"});
      routes := routes["2.9" := cids];
    }
  }

  method DropRepeats(values: seq<string>) returns (result: seq<string>)
    ensures result == Dedupe(values)
    ensures Distinct(result) && Members(result) == Members(values)
  {
    var seen: set<string> := {};
    result := [];
    for i := 0 to |values|
      invariant seen == Members(result) && result == Dedupe(values[..i])
      invariant Distinct(result) && Members(result) == Members(values[..i])
    {
      assert values[..i + 1] == values[..i] + [values[i]];
      MembersAppend(values[..i], values[i]);
      assert values[..i + 1][..i] == values[..i];
      if values[i] !in seen {
        MembersAppend(result, values[i]);
        seen := seen + {values[i]};
        result := result + [values[i]];
      }
    }
    assert values[..|values|] == values;
  }

  function RoutedUpTo(linkSet: map<string, string>, accounts: seq<PlanAccount>, includeTest: bool, n: nat): seq<string>
    requires n <= |LINK_TYPES|
  {
    if n == 0 then []
    else RoutedUpTo(linkSet, accounts, includeTest, n - 1) + Routed(linkSet, accounts, includeTest, LINK_TYPES[n - 1])
  }

  lemma AllRouted(linkSet: map<string, string>, accounts: seq<PlanAccount>, includeTest: bool)
    ensures Dedupe(RoutedUpTo(linkSet, accounts, includeTest, |LINK_TYPES|))
        == AccountCids(linkSet, accounts, includeTest)
  {
    hide Routed, Dedupe;
    var iaa := Routed(linkSet, accounts, includeTest, "IAA");
    assert [] + iaa == iaa;
    assert RoutedUpTo(linkSet, accounts, includeTest, 1) == iaa;
    assert RoutedUpTo(linkSet, accounts, includeTest, 2) == iaa + Routed(linkSet, accounts, includeTest, "9.9");
  }

  method BuildPlan(input: PlanInput) returns (plan: Result<PlanSpec>)
    ensures plan == Build(input)
  {
    hide Calculate, TaskName, Routed, Dedupe, AccountCids, PromotionName;
    var linkSet := LinkSet(input.links);
    var routes := Route(linkSet, input.accounts, input.includeTest);
    var routed: seq<string> := [];
    for i := 0 to |LINK_TYPES|
      invariant routed == RoutedUpTo(linkSet, input.accounts, input.includeTest, i)
    {
      NotRouted(linkSet, input.accounts, input.includeTest, LINK_TYPES[i]);
      routed := routed + if LINK_TYPES[i] in routes then routes[LINK_TYPES[i]] else [];
    }
    AllRouted(linkSet, input.accounts, input.includeTest);
    var accountCids := DropRepeats(routed);
    match Calculate(input.materialCount, input.materialRanges) {
      case Err(e) =>
        return Err(e);
      case Ok(groups) =>
        plan := Ok(PlanSpec(
          input.dramaName, input.platform,
          TaskName(input.platform, input.dramaName, input.dates, PrimaryPlanType(linkSet, input.includeTest)),
          linkSet, accountCids,
          map t | t in linkSet :: PromotionName(t, input.platform, input.dramaName),
          Some(groups), groups.projectCount, input.materialIds, input.titlePackages));
    }
  }

  lemma NotRouted(linkSet: map<string, string>, accounts: seq<PlanAccount>, includeTest: bool, linkType: string)
    ensures linkType !in linkSet ==> Routed(linkSet, accounts, includeTest, linkType) == []
  {
  }

  method CheckCidConfigs(cids: seq<string>, configs: seq<CidConfig>, now: Time) returns (issues: seq<Issue>)
    ensures issues == AllCidIssues(cids, configs, now)
  {
    hide CidIssues;
    issues := [];
    for i := 0 to |cids|
      invariant issues + AllCidIssues(cids[i..], configs, now) == AllCidIssues(cids, configs, now)
    {
      assert cids[i..][1..] == cids[i + 1..];
      var found := CheckCidConfig(cids[i], configs, now);
      issues := issues + found;
    }
  }

  method CheckCidConfig(cid: string, configs: seq<CidConfig>, now: Time) returns (issues: seq<Issue>)
    ensures issues == CidIssues(cid, configs, now)
  {
    hide ValidConfigsFor, NonBlank;
    var matches := ValidConfigsFor(cid, configs, now);
    if |matches| != 1 {
      return [CidConfigMissing(cid, |matches|)];
    }
    issues := if NonBlank(matches[0].douyinAccount) then [] else [DouyinAccountEmpty(cid)];
    var missing: seq<string> := [];
    if !NonBlank(matches[0].adPreset) {
      missing := missing + ["ad_preset"];
    }
    if !NonBlank(matches[0].accountOpenPreset) {
      missing := missing + ["account_open_preset"];
    }
    assert missing == (if NonBlank(matches[0].adPreset) then [] else ["ad_preset"])
      + (if NonBlank(matches[0].accountOpenPreset) then [] else ["account_open_preset"]);
    issues := issues + if missing == [] then [] else [PresetIncomplete(cid, missing)];
  }

  method CheckTemplateAccounts(spec: PlanSpec, configs: seq<CidConfig>, now: Time) returns (issues: seq<Issue>)
    ensures issues == TemplateIssues(spec, configs, now)
  {
    hide ValidConfigsFor;
    var covered: set<string> := {};
    var cids := spec.accountCids;
    for i := 0 to |cids|
      invariant covered <= {"9.9", "2.9"}
      invariant forall t :: t in {"9.9", "2.9"} ==> (t in covered <==> Covered(t, cids[..i], configs, now))
    {
      var matches := ValidConfigsFor(cids[i], configs, now);
      forall t ensures Covered(t, cids[..i + 1], configs, now) <==>
        Covered(t, cids[..i], configs, now) || (|matches| == 1 && matches[0].deliveryType in RolesOf(t) + {t})
      {
        CoveredByOneMore(t, cids[..i], cids[i], configs, now);
        assert cids[..i] + [cids[i]] == cids[..i + 1];
      }
      if |matches| == 1 {
        if matches[0].deliveryType in {"B1-9.9", "9.9"} {
          covered := covered + {"9.9"};
        }
        if matches[0].deliveryType in {"B2-2.9", "2.9"} {
          covered := covered + {"2.9"};
        }
      }
    }
    assert cids[..|cids|] == cids;
    issues := [];
    if "9.9" in spec.linkSet && "9.9" !in covered {
      issues := issues + [TemplateAccountMismatch("9.9")];
    }
    if "2.9" in spec.linkSet && "2.9" !in covered {
      issues := issues + [TemplateAccountMismatch("2.9")];
    }
  }

  lemma CoveredByOneMore(t: string, cids: seq<string>, cid: string, configs: seq<CidConfig>, now: Time)
    ensures Covered(t, cids + [cid], configs, now) <==>
      || Covered(t, cids, configs, now)
      || (|ValidConfigsFor(cid, configs, now)| == 1
          && ValidConfigsFor(cid, configs, now)[0].deliveryType in RolesOf(t) + {t})
  {
    hide ValidConfigsFor, RolesOf;
    assert cid in cids + [cid];
  }

  method ValidatePlan(spec: PlanSpec, configs: seq<CidConfig>, now: Time) returns (issues: seq<Issue>)
    ensures issues == Validate(spec, configs, now)
  {
    hide AllCidIssues, TemplateIssues, HasMarker;
    issues := if spec.linkSet == map[] then [LinkSetEmpty] else [];
    var cidIssues := CheckCidConfigs(spec.accountCids, configs, now);
    var templateIssues := CheckTemplateAccounts(spec, configs, now);
    issues := issues + cidIssues + templateIssues;
    if !(spec.materialGroups.Some? && spec.expectedProjectCount > 0) {
      issues := issues + [MaterialCountInvalid];
    }
    if !(spec.taskName != "" && HasMarker(spec.taskName)) {
      issues := issues + [TaskNameInvalid];
    }
  }

  /** Freeze a plan into a form, refusing at the first thing missing. */
  method BuildDeliveryForm(spec: PlanSpec, configs: seq<CidConfig>) returns (form: Result<DeliveryForm>)
    ensures form == BuildForm(spec, configs)
  {
    hide FormRow, Trimmed;
    var byCid := GroupByCid(configs);
    var rows: seq<CidFormRow> := [];
    for i := 0 to |spec.accountCids|
      invariant FormRows(spec, configs, spec.accountCids[..i]) == Ok(rows)
    {
      var cid := spec.accountCids[i];
      assert spec.accountCids[..i + 1][..i] == spec.accountCids[..i];
      var row := RowFor(spec, if cid in byCid then byCid[cid] else [], cid, configs);
      if row.Err? {
        FormRowsStopAt(spec, configs, spec.accountCids, i + 1);
        return Err(row.error);
      }
      rows := rows + [row.value];
    }
    assert spec.accountCids[..|spec.accountCids|] == spec.accountCids;
    var materials := TrimmedItems(spec.materialIds);
    var titles := TrimmedItems(spec.titlePackages);
    var materialsDistinct := AllDistinct(materials);
    var titlesDistinct := AllDistinct(titles);
    if rows == [] || materials == [] || !materialsDistinct || |titles| != 6 || !titlesDistinct
        || spec.materialGroups.None? {
      return Err(Invalid);
    }
    var planType := if "9.9" in spec.linkSet || "2.9" in spec.linkSet then Paid else Free;
    form := Ok(DeliveryForm(spec.dramaName, spec.taskName, planType, rows, materials, titles,
      spec.materialGroups.value.finalGroupCount, spec.materialGroups.value.adLimitPerProject,
          spec.expectedProjectCount));
  }

  method GroupByCid(configs: seq<CidConfig>) returns (byCid: map<string, seq<CidConfig>>)
    ensures forall cid :: ConfigsOf(cid, configs) == if cid in byCid then byCid[cid] else []
  {
    hide ConfigsOf;
    byCid := map[];
    forall cid ensures ConfigsOf(cid, []) == [] {
      NoConfigs(cid);
    }
    for i := 0 to |configs|
      invariant forall cid :: ConfigsOf(cid, configs[..i]) == if cid in byCid then byCid[cid] else []
    {
      var config := configs[i];
      forall cid ensures ConfigsOf(cid, configs[..i + 1]) == ConfigsOf(cid, configs[..i]) + if config.cid == cid
          then [config] else [] {
        assert configs[..i + 1] == configs[..i] + [config];
        ConfigsOfAppend(cid, configs[..i], config);
      }
      byCid := byCid[config.cid := (if config.cid in byCid then byCid[config.cid] else []) + [config]];
    }
    assert configs[..|configs|] == configs;
  }

  lemma ConfigsOfFirst(cid: string, first: CidConfig, configs: seq<CidConfig>)
    ensures ConfigsOf(cid, [first] + configs) == (if first.cid == cid then [first] else []) + ConfigsOf(cid, configs)
  {
    assert ([first] + configs)[1..] == configs;
  }

  lemma {:induction false} ConfigsOfAppend(cid: string, configs: seq<CidConfig>, last: CidConfig)
    ensures ConfigsOf(cid, configs + [last]) == ConfigsOf(cid, configs) + if last.cid == cid then [last] else []
    decreases |configs|
  {
    hide ConfigsOf;
    NoConfigs(cid);
    if configs == [] {
      assert [] + [last] == [last] + [];
      ConfigsOfFirst(cid, last, []);
    } else {
      var rest := configs[1..];
      assert configs == [configs[0]] + rest && configs + [last] == [configs[0]] + (rest + [last]);
      ConfigsOfFirst(cid, configs[0], rest);
      ConfigsOfFirst(cid, configs[0], rest + [last]);
      ConfigsOfAppend(cid, rest, last);
    }
  }

  lemma NoConfigs(cid: string)
    ensures ConfigsOf(cid, []) == []
  {
  }

  method RowFor(spec: PlanSpec, matches: seq<CidConfig>, cid: string, ghost configs: seq<CidConfig>)
      returns (row: Result<CidFormRow>)
    requires matches == ConfigsOf(cid, configs)
    ensures row == FormRow(spec, configs, cid)
  {
    hide ConfigsOf, Strip, EndsWith;
    if |matches| != 1 {
      return Err(Invalid);
    }
    var config := matches[0];
    var linkType := LinkOfDelivery(config.deliveryType);
    if linkType.None? || linkType.value !in spec.linkSet {
      return Err(Invalid);
    }
    var promotion := Strip(if linkType.value in spec.promotionConfigs then spec.promotionConfigs[linkType.value]
        else "");
    if promotion == "" {
      return Err(Invalid);
    }
    if !EndsWith(promotion, "-" + spec.dramaName) {
      return Err(Invalid);
    }
    var douyin, open, ad := Strip(config.douyinAccount), Strip(config.accountOpenPreset), Strip(config.adPreset);
    if douyin == "" || open == "" || ad == "" {
      return Err(Invalid);
    }
    row := Ok(CidFormRow(cid, douyin, open, ad, promotion, linkType.value));
  }

  lemma {:induction false} FormRowsStopAt(spec: PlanSpec, configs: seq<CidConfig>, cids: seq<string>, n: nat)
    requires n <= |cids| && FormRows(spec, configs, cids[..n]).Err?
    ensures FormRows(spec, configs, cids) == FormRows(spec, configs, cids[..n])
    decreases |cids|
  {
    hide FormRow;
    if n == |cids| {
      assert cids[..n] == cids;
    } else {
      var shorter := cids[..|cids| - 1];
      assert shorter[..n] == cids[..n];
      FormRowsStopAt(spec, configs, shorter, n);
    }
  }

  method TrimmedItems(items: seq<string>) returns (trimmed: seq<string>)
    ensures trimmed == Trimmed(items)
  {
    trimmed := [];
    for i := 0 to |items|
      invariant trimmed + Trimmed(items[i..]) == Trimmed(items)
    {
      assert items[i..][1..] == items[i + 1..];
      if Strip(items[i]) != "" {
        trimmed := trimmed + [Strip(items[i])];
      }
    }
  }

  method AllDistinct(items: seq<string>) returns (distinct: bool)
    ensures distinct == Distinct(items)
  {
    var seen: set<string> := {};
    for i := 0 to |items|
      invariant seen == Members(items[..i]) && Distinct(items[..i])
    {
      if items[i] in seen {
        var j :| 0 <= j < i && items[..i][j] == items[i];
        assert items[j] == items[i];
        return false;
      }
      assert items[..i + 1] == items[..i] + [items[i]];
      MembersAppend(items[..i], items[i]);
      seen := seen + {items[i]};
    }
    assert items[..|items|] == items;
    distinct := true;
  }
}
