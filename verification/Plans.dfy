/** From allocated accounts to a delivery form: account routing, the plan, its validation and the frozen form. */
module Plans {
  import opened Basics
  import opened Sorting
  import opened Text
  import opened AccountSheets
  import opened AccountAllocation
  import opened MaterialGroups

  // ---- accounts of one task ----

  datatype PlanAccount = PlanAccount(role: string, cid: string, isTest: bool)

  const IAA_ROLES := {"B1", "B4", "B7", "BX"}

  /** The link types in the order plans use them. */
  const LINK_TYPES := ["IAA", "9.9", "2.9"]

  function RolesOf(linkType: string): set<string> {
    if linkType == "IAA" then IAA_ROLES
    else if linkType == "9.9" then {"B1-9.9"}
    else if linkType == "2.9" then {"B2-2.9"}
    else {}
  }

  function AccountsFrom(rows: Sheet): seq<PlanAccount> {
    seq(|rows|, i requires 0 <= i < |rows| => PlanAccount(rows[i].group, rows[i].cid, rows[i].isTest))
  }

  /** The test row's B4 account carries the test mark. */
  function Marked(accounts: seq<PlanAccount>, row: AccountRow): seq<PlanAccount> {
    seq(|accounts|, i requires 0 <= i < |accounts| =>
      if accounts[i].cid == row.cid && accounts[i].role == "B4" then accounts[i].(isTest := true) else accounts[i])
  }

  function RequiredIap(links: map<string, string>): set<string> {
    (if "9.9" in links then {"9.9"} else {}) + (if "2.9" in links then {"2.9"} else {})
  }

  /** The accounts for the links present, or None when a block is missing. */
  ghost function Allocate(links: map<string, string>, includeTest: bool, rows: Sheet): Option<seq<PlanAccount>> {
    var iaa := if "IAA" in links then FindBlock(rows, Groups(IAA_BLOCK), {}) else Some(Block([], None));
    if iaa.None? then None
    else
      var required := RequiredIap(links);
      var iap :=
        if required == {} then Some(Block([], None))
        else FindBlock(rows, Groups(IapPatterns(required)), Cids(iaa.value.rows));
      if iap.None? then None
      else
        var accounts := AccountsFrom(iaa.value.rows) + AccountsFrom(iap.value.rows);
        Some(if includeTest && iaa.value.testRow.Some? then Marked(accounts, iaa.value.testRow.value) else accounts)
  }

  // ---- CID configurations ----

  /** A point in time as configured: missing, not readable, or given. */
  datatype Moment = Missing | Unreadable | At(time: Time)

  datatype CidConfig = CidConfig(
    cid: string,
    subject: string,
    deliveryType: string,
    enabled: bool,
    effectiveFrom: Moment,
    effectiveTo: Moment,
    douyinAccount: string,
    adPreset: string,
    accountOpenPreset: string)

  const SUBJECT := "微智造"
  const DAY := 86400.0

  function DeliveryType(role: string): string {
    if role in IAA_ROLES then "IAA" else role
  }

  function ConfigFor(account: PlanAccount, now: Time): CidConfig {
    CidConfig(account.cid, SUBJECT, DeliveryType(account.role), true, At(now - DAY), Missing,
      "dy-" + account.cid, "ad-" + account.cid, "open-" + account.cid)
  }

  function CidsIn(accounts: seq<PlanAccount>): seq<string> {
    seq(|accounts|, i requires 0 <= i < |accounts| => accounts[i].cid)
  }

  /** One configuration for each CID, from the first account that has it. */
  function CidConfigs(accounts: seq<PlanAccount>, now: Time): seq<CidConfig>
    decreases |accounts|
  {
    if accounts == [] then []
    else
      var (earlier, last) := (accounts[..|accounts| - 1], accounts[|accounts| - 1]);
      CidConfigs(earlier, now) + if last.cid in CidsIn(earlier) then [] else [ConfigFor(last, now)]
  }

  // ---- the plan ----

  datatype PlanSpec = PlanSpec(
    dramaName: string,
    platform: string,
    taskName: string,
    linkSet: map<string, string>,
    accountCids: seq<string>,
    promotionConfigs: map<string, string>,
    materialGroups: Option<MaterialPlan>,
    expectedProjectCount: int,
    materialIds: seq<string>,
    titlePackages: seq<string>)

  /** The dates of a task name as text: the delivery day, the local day and the local time. */
  datatype NameDates = NameDates(delivery: string, today: string, clock: string)

  datatype PlanInput = PlanInput(
    dramaName: string,
    platform: string,
    dates: NameDates,
    links: map<string, string>,
    accounts: seq<PlanAccount>,
    materialCount: int,
    materialRanges: seq<RuleRange>,
    includeTest: bool,
    materialIds: seq<string>,
    titlePackages: seq<string>)

  function LinkSet(links: map<string, string>): map<string, string> {
    map t | t in LINK_TYPES && t in links && links[t] != "" :: links[t]
  }

  /** The CIDs of the given roles in account order, each once, empty ones left out. */
  function CidsByRoles(accounts: seq<PlanAccount>, roles: set<string>): seq<string> {
    if accounts == [] then []
    else
      var earlier := CidsByRoles(accounts[..|accounts| - 1], roles);
      var last := accounts[|accounts| - 1];
      if last.role in roles && last.cid != "" && last.cid !in earlier then earlier + [last.cid] else earlier
  }

  /** `role.split("-")[0] == "B4"`. */
  predicate IsB4(role: string) {
    role == "B4" || "B4-" <= role
  }

  function FirstTest(accounts: seq<PlanAccount>): Option<PlanAccount> {
    if accounts == [] then None
    else if IsB4(accounts[0].role) && accounts[0].isTest then Some(accounts[0])
    else FirstTest(accounts[1..])
  }

  function FirstB4(accounts: seq<PlanAccount>): Option<PlanAccount> {
    if accounts == [] then None
    else if IsB4(accounts[0].role) then Some(accounts[0])
    else FirstB4(accounts[1..])
  }

  function TestAccount(accounts: seq<PlanAccount>): Option<PlanAccount> {
    if FirstTest(accounts).Some? then FirstTest(accounts) else FirstB4(accounts)
  }

  function WithTestAccount(cids: seq<string>, accounts: seq<PlanAccount>): seq<string> {
    match TestAccount(accounts)
    case None => cids
    case Some(account) => if account.cid != "" && account.cid !in cids then cids + [account.cid] else cids
  }

  /** The CIDs routed to one link type; none when the plan does not have it. */
  function Routed(linkSet: map<string, string>, accounts: seq<PlanAccount>, includeTest: bool,
      linkType: string): seq<string> {
    if linkType !in linkSet then []
    else
      var cids := CidsByRoles(accounts, RolesOf(linkType));
      if linkType == "IAA" && includeTest then WithTestAccount(cids, accounts) else cids
  }

  /** The first occurrence of each value. */
  function Dedupe(values: seq<string>): seq<string> {
    if values == [] then []
    else
      var earlier := Dedupe(values[..|values| - 1]);
      var last := values[|values| - 1];
      if last in earlier then earlier else earlier + [last]
  }

  function AccountCids(linkSet: map<string, string>, accounts: seq<PlanAccount>, includeTest: bool): seq<string> {
    Dedupe(Routed(linkSet, accounts, includeTest, "IAA")
      + Routed(linkSet, accounts, includeTest, "9.9")
      + Routed(linkSet, accounts, includeTest, "2.9"))
  }

  function PlatformLabel(platform: string): string {
    match platform
    case "TOMATO" => "番茄"
    case "JUBIAN" => "剧变"
    case "OCEAN" => "巨量"
    case "DELIVERY" => "投放系统"
    case _ => platform
  }

  function PromotionName(linkType: string, platform: string, dramaName: string): string {
    (if linkType == "IAA" then "iaa" else linkType) + "-" + PlatformLabel(platform) + "-" + dramaName
  }

  datatype PlanType = Paid | Free | Test

  function PrimaryPlanType(linkSet: map<string, string>, includeTest: bool): PlanType {
    if includeTest then Test else if "9.9" in linkSet || "2.9" in linkSet then Paid else Free
  }

  function PlanTypeText(planType: PlanType): string {
    match planType case Paid => "端付" case Free => "端免" case Test => "测试"
  }

  function Marker(planType: PlanType): string {
    match planType case Paid => "ubr" case Free => "bxr" case Test => "cbo"
  }

  function TaskName(platform: string, dramaName: string, dates: NameDates, planType: PlanType): string {
    platform + "#" + PlanTypeText(planType) + dramaName + dates.delivery + Marker(planType)
      + ("-" + dates.today + "-" + dates.clock + "-1")
  }

  function Build(input: PlanInput): Result<PlanSpec> {
    var linkSet := LinkSet(input.links);
    match Calculate(input.materialCount, input.materialRanges)
    case Err(e) => Err(e)
    case Ok(groups) =>
      Ok(PlanSpec(
        input.dramaName, input.platform,
        TaskName(input.platform, input.dramaName, input.dates, PrimaryPlanType(linkSet, input.includeTest)),
        linkSet,
        AccountCids(linkSet, input.accounts, input.includeTest),
        map t | t in linkSet :: PromotionName(t, input.platform, input.dramaName),
        Some(groups), groups.projectCount, input.materialIds, input.titlePackages))
  }

  // ---- validation ----

  datatype Issue =
    | LinkSetEmpty
    | CidConfigMissing(cid: string, matches: nat)
    | DouyinAccountEmpty(cid: string)
    | PresetIncomplete(cid: string, missing: seq<string>)
    | TemplateAccountMismatch(linkType: string)
    | MaterialCountInvalid
    | TaskNameInvalid

  predicate NonBlank(s: string) {
    Strip(s) != ""
  }

  predicate Effective(config: CidConfig, now: Time) {
    && config.effectiveFrom.At? && config.effectiveFrom.time <= now
    && (!config.effectiveTo.Missing? ==> config.effectiveTo.At? && now <= config.effectiveTo.time)
  }

  predicate ValidFor(cid: string, config: CidConfig, now: Time) {
    config.cid == cid && NonBlank(config.subject) && NonBlank(config.deliveryType) && config.enabled
        && Effective(config, now)
  }

  function ValidConfigsFor(cid: string, configs: seq<CidConfig>, now: Time): seq<CidConfig>
    decreases |configs|
  {
    if configs == [] then []
    else
      var rest := ValidConfigsFor(cid, configs[1..], now);
      if ValidFor(cid, configs[0], now) then [configs[0]] + rest else rest
  }

  function CidIssues(cid: string, configs: seq<CidConfig>, now: Time): seq<Issue> {
    var matches := ValidConfigsFor(cid, configs, now);
    if |matches| != 1 then [CidConfigMissing(cid, |matches|)]
    else
      var config := matches[0];
      var missing := (if NonBlank(config.adPreset) then [] else ["ad_preset"])
        + (if NonBlank(config.accountOpenPreset) then [] else ["account_open_preset"]);
      (if NonBlank(config.douyinAccount) then [] else [DouyinAccountEmpty(cid)])
        + (if missing == [] then [] else [PresetIncomplete(cid, missing)])
  }

  function AllCidIssues(cids: seq<string>, configs: seq<CidConfig>, now: Time): seq<Issue>
    decreases |cids|
  {
    if cids == [] then [] else CidIssues(cids[0], configs, now) + AllCidIssues(cids[1..], configs, now)
  }

  /** Some CID with one valid configuration delivers the paid link type. */
  predicate Covered(linkType: string, cids: seq<string>, configs: seq<CidConfig>, now: Time) {
    exists cid :: cid in cids && |ValidConfigsFor(cid, configs, now)| == 1
      && ValidConfigsFor(cid, configs, now)[0].deliveryType in RolesOf(linkType) + {linkType}
  }

  function TemplateIssues(spec: PlanSpec, configs: seq<CidConfig>, now: Time): seq<Issue> {
    (if "9.9" in spec.linkSet && !Covered("9.9", spec.accountCids, configs, now) then [TemplateAccountMismatch("9.9")]
        else [])
      + (if "2.9" in spec.linkSet && !Covered("2.9", spec.accountCids, configs, now)
          then [TemplateAccountMismatch("2.9")] else [])
  }

  predicate HasMarker(taskName: string) {
    Contains(taskName, "ubr") || Contains(taskName, "bxr") || Contains(taskName, "cbo")
  }

  function Validate(spec: PlanSpec, configs: seq<CidConfig>, now: Time): seq<Issue> {
    (if spec.linkSet == map[] then [LinkSetEmpty] else [])
      + AllCidIssues(spec.accountCids, configs, now)
      + TemplateIssues(spec, configs, now)
      + (if spec.materialGroups.Some? && spec.expectedProjectCount > 0 then [] else [MaterialCountInvalid])
      + (if spec.taskName != "" && HasMarker(spec.taskName) then [] else [TaskNameInvalid])
  }

  // ---- the delivery form ----

  datatype CidFormRow = CidFormRow(
    cid: string,
    douyinAccount: string,
    accountOpenPreset: string,
    adPreset: string,
    promotionContent: string,
    linkType: string)

  datatype DeliveryForm = DeliveryForm(
    dramaName: string,
    taskName: string,
    planType: PlanType,
    cidRows: seq<CidFormRow>,
    materialIds: seq<string>,
    titlePackages: seq<string>,
    materialGroupCount: int,
    adLimitPerProject: int,
    projectCount: int)

  function LinkOfDelivery(deliveryType: string): Option<string> {
    if deliveryType in IAA_ROLES + {"IAA"} then Some("IAA")
    else if deliveryType in {"B1-9.9", "9.9"} then Some("9.9")
    else if deliveryType in {"B2-2.9", "2.9"} then Some("2.9")
    else None
  }

  function ConfigsOf(cid: string, configs: seq<CidConfig>): seq<CidConfig> {
    if configs == [] then []
    else
      var rest := ConfigsOf(cid, configs[1..]);
      if configs[0].cid == cid then [configs[0]] + rest else rest
  }

  function PromotionOf(spec: PlanSpec, linkType: string): string {
    Strip(if linkType in spec.promotionConfigs then spec.promotionConfigs[linkType] else "")
  }

  /** The form row of one CID, when everything it needs is there. */
  function FormRow(spec: PlanSpec, configs: seq<CidConfig>, cid: string): Result<CidFormRow> {
    var matches := ConfigsOf(cid, configs);
    if |matches| != 1 then Err(Invalid)
    else
      var config := matches[0];
      var linkType := LinkOfDelivery(config.deliveryType);
      if linkType.None? || linkType.value !in spec.linkSet then Err(Invalid)
      else
        var promotion := PromotionOf(spec, linkType.value);
        if promotion == "" || !EndsWith(promotion, "-" + spec.dramaName) then Err(Invalid)
        else
          var row := CidFormRow(cid, Strip(config.douyinAccount), Strip(config.accountOpenPreset),
              Strip(config.adPreset),
            promotion, linkType.value);
          if row.douyinAccount == "" || row.accountOpenPreset == "" || row.adPreset == "" then Err(Invalid) else Ok(row)
  }

  function FormRows(spec: PlanSpec, configs: seq<CidConfig>, cids: seq<string>): Result<seq<CidFormRow>> {
    if cids == [] then Ok([])
    else
      match FormRows(spec, configs, cids[..|cids| - 1])
      case Err(e) => Err(e)
      case Ok(rows) =>
        match FormRow(spec, configs, cids[|cids| - 1])
        case Err(e) => Err(e)
        case Ok(row) => Ok(rows + [row])
  }

  /** The non-blank entries, trimmed. */
  function Trimmed(items: seq<string>): seq<string> {
    if items == [] then []
    else
      var rest := Trimmed(items[1..]);
      if Strip(items[0]) != "" then [Strip(items[0])] + rest else rest
  }

  ghost function BuildForm(spec: PlanSpec, configs: seq<CidConfig>): Result<DeliveryForm> {
    match FormRows(spec, configs, spec.accountCids)
    case Err(e) => Err(e)
    case Ok(rows) =>
      var materials, titles := Trimmed(spec.materialIds), Trimmed(spec.titlePackages);
      if rows == [] then Err(Invalid)
      else if materials == [] || !Distinct(materials) then Err(Invalid)
      else if |titles| != 6 || !Distinct(titles) then Err(Invalid)
      else if spec.materialGroups.None? then Err(Invalid)
      else
        Ok(DeliveryForm(spec.dramaName, spec.taskName,
          if "9.9" in spec.linkSet || "2.9" in spec.linkSet then Paid else Free,
          rows, materials, titles,
          spec.materialGroups.value.finalGroupCount, spec.materialGroups.value.adLimitPerProject,
              spec.expectedProjectCount))
  }
}
