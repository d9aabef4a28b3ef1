/**
 * Assigning account blocks to a drama: plan over both sheets, check again, write, read back, record.
 * The whole call as a function on the state (sheets and recorded uses).
 */
module AccountAssignment {
  import opened Basics
  import opened Sorting
  import opened AccountSheets
  import opened AccountAllocation

  datatype Account = Account(role: string, cid: string, isTest: bool, rowNumber: int, kind: Kind)

  datatype Status = Confirmed | Conflict | PartialWrite | DryRun | Unavailable

  datatype Outcome = Outcome(status: Status, accounts: seq<Account>)

  /** A caller's check of the accounts; false stands for the exception it raises. */
  type Validator = seq<Account> -> bool

  datatype Request = Request(
    dramaName: string,
    links: map<string, string>,
    heldCids: set<string>,
    dryRun: bool,
    includeTest: bool,
    taskId: Option<string>,
    day: Option<int>,
    validator: Option<Validator>)

  /** The recorded uses of accounts: business day and CID. */
  type Uses = set<(int, string)>

  /** `uses` is absent when the service runs without a usage repository. */
  datatype State = State(sheets: Sheets, uses: Option<Uses>)

  predicate Wants(links: map<string, string>, linkType: string) {
    linkType in links && links[linkType] != ""
  }

  function PaidTypes(links: map<string, string>): set<string> {
    (if Wants(links, "9.9") then {"9.9"} else {}) + (if Wants(links, "2.9") then {"2.9"} else {})
  }

  function UsedOn(uses: Uses, day: int): set<string> {
    set u | u in uses && u.0 == day :: u.1
  }

  function UsedToday(st: State, req: Request): set<string> {
    req.heldCids + if st.uses.Some? && req.day.Some? then UsedOn(st.uses.value, req.day.value) else {}
  }

  function Occupied(rows: Sheet): set<string> {
    set row | row in rows && row.dramaName != "" :: row.cid
  }

  predicate Accepts(req: Request, accounts: seq<Account>) {
    req.validator.Some? ==> req.validator.value(accounts)
  }

  function AccountOf(kind: Kind, block: Block, includeTest: bool, row: AccountRow): Account {
    Account(row.group, row.cid,
      row.isTest || (includeTest && block.testRow.Some? && row.rowNumber == block.testRow.value.rowNumber),
      row.rowNumber, kind)
  }

  function AccountsOf(kind: Kind, block: Block, includeTest: bool): seq<Account> {
    seq(|block.rows|, i requires 0 <= i < |block.rows| => AccountOf(kind, block, includeTest, block.rows[i]))
  }

  // ---- planning ----

  predicate Copyable(row: AccountRow, group: string, used: set<string>) {
    row.group == group && row.enabled && row.cid != "" && row.name != "" && row.cid !in used
  }

  ghost predicate CopyableAt(rows: Sheet, start: nat, groups: seq<string>, used: set<string>) {
    start + |groups| <= |rows| && forall i :: 0 <= i < |groups| ==> Copyable(rows[start + i], groups[i], used)
  }

  /** The last complete block that may be copied, searching back from `start`. */
  ghost function LatestTemplate(rows: Sheet, groups: seq<string>, used: set<string>,
      start: int): (template: Option<Sheet>)
    ensures template.Some? ==>
      exists k :: 0 <= k <= start && CopyableAt(rows, k, groups, used) && template.value == rows[k..k + |groups|]
    ensures template.None? ==> forall k :: 0 <= k <= start ==> !CopyableAt(rows, k, groups, used)
    decreases start
  {
    if start < 0 then None
    else if CopyableAt(rows, start, groups, used) then Some(rows[start..start + |groups|])
    else LatestTemplate(rows, groups, used, start - 1)
  }

  /** A block found among the rows, or one that appending `added` provides. */
  datatype Planned = Planned(block: Block, added: Sheet) | NoBlock | Refused

  /** Copy the latest complete block below the table, and allocate among the copies. */
  ghost function PlanAppended(kind: Kind, rows: Sheet, groups: seq<string>, definition: Patterns, used: set<string>,
      req: Request): Planned {
    match LatestTemplate(rows, Groups(definition), used, |rows| - |Groups(definition)|)
    case None => NoBlock
    case Some(template) =>
      var added := Appended(MaxNumber(rows), template);
      match FindBlock(added, groups, used)
      case None => NoBlock
      case Some(block) =>
        if Accepts(req, AccountsOf(kind, block, req.includeTest)) then Planned(block, added) else Refused
  }

  ghost function PlanBlock(kind: Kind, rows: Sheet, groups: seq<string>, definition: Patterns,
                           reserved: set<string>, used: set<string>, req: Request): Planned
  {
    match FindBlock(rows, groups, reserved)
    case Some(block) => Planned(block, [])
    case None => PlanAppended(kind, rows, groups, definition, used, req)
  }

  /** A plan for a request: the blocks by sheet and the rows to append, or why there is none. */
  datatype Plan = Plan(iaa: Option<Block>, iap: Option<Block>, iaaAdded: Sheet, iapAdded: Sheet,
      failure: Option<Status>)

  function Failure(planned: Planned): Option<Status> {
    match planned
    case Planned(_, _) => None
    case NoBlock => Some(Unavailable)
    case Refused => Some(Status.Conflict)
  }

  ghost function PlanIaa(st: State, req: Request): Planned {
    var used := UsedToday(st, req);
    PlanBlock(Iaa, st.sheets.iaa, Groups(IAA_BLOCK), IAA_BLOCK, used + Occupied(st.sheets.iaa), used, req)
  }

  ghost function PlanIap(st: State, req: Request, iaa: Option<Block>): Planned {
    var taken := if iaa.Some? then Cids(iaa.value.rows) else {};
    var used := UsedToday(st, req) + taken;
    var reserved := used + (if Wants(req.links, "IAA") then Occupied(st.sheets.iaa) else {}) + Occupied(st.sheets.iap);
    PlanBlock(Iap, st.sheets.iap, Groups(IapPatterns(PaidTypes(req.links))), IAP_BLOCK, reserved, used, req)
  }

  ghost function MakePlan(st: State, req: Request): Plan {
    var first := if Wants(req.links, "IAA") then PlanIaa(st, req) else NoBlock;
    if Wants(req.links, "IAA") && !first.Planned? then Plan(None, None, [], [], Failure(first))
    else
      var iaa := if first.Planned? then Some(first.block) else None;
      var iaaAdded := if first.Planned? then first.added else [];
      if PaidTypes(req.links) == {} then
        Plan(iaa, None, iaaAdded, [], if iaa.None? then Some(Unavailable) else None)
      else
        var second := PlanIap(st, req, iaa);
        if second.Planned? then Plan(iaa, Some(second.block), iaaAdded, second.added, None)
        else Plan(iaa, None, iaaAdded, [], Failure(second))
  }

  /** The planned blocks in the order they are written. */
  function Blocks(plan: Plan): seq<(Kind, Block)> {
    (if plan.iaa.Some? then [(Iaa, plan.iaa.value)] else []) + (if plan.iap.Some? then [(Iap, plan.iap.value)] else [])
  }

  function AllAccounts(blocks: seq<(Kind, Block)>, includeTest: bool): seq<Account> {
    if blocks == [] then []
    else AccountsOf(blocks[0].0, blocks[0].1, includeTest) + AllAccounts(blocks[1..], includeTest)
  }

  // ---- writing ----

  predicate RowStillAvailable(expected: AccountRow, latest: Sheet) {
    match LastWith(latest, expected.rowNumber)
    case None => false
    case Some(k) =>
      latest[k].cid == expected.cid && latest[k].group == expected.group && latest[k].enabled
          && latest[k].dramaName == ""
  }

  ghost predicate StillAvailable(expected: Sheet, latest: Sheet) {
    forall i :: 0 <= i < |expected| ==> RowStillAvailable(expected[i], latest)
  }

  predicate RowWritten(expected: AccountRow, latest: Sheet, dramaName: string, testNumber: Option<int>) {
    match LastWith(latest, expected.rowNumber)
    case None => false
    case Some(k) =>
      && latest[k].cid == expected.cid && latest[k].dramaName == dramaName
      && (testNumber == Some(expected.rowNumber) ==> latest[k].isTest)
  }

  ghost predicate WriteConfirmed(expected: Sheet, latest: Sheet, dramaName: string, testNumber: Option<int>) {
    forall i :: 0 <= i < |expected| ==> RowWritten(expected[i], latest, dramaName, testNumber)
  }

  function TestNumber(block: Block, includeTest: bool): Option<int> {
    if includeTest && block.testRow.Some? then Some(block.testRow.value.rowNumber) else None
  }

  datatype Writing = Written | Mismatch | Failed(wrote: bool)

  /** Write the blocks one after the other, reading each back. */
  ghost function WriteBlocks(sheets: Sheets, blocks: seq<(Kind, Block)>, req: Request, wrote: bool): (Sheets, Writing)
    decreases |blocks|
  {
    if blocks == [] then (sheets, Written)
    else
      var (kind, block) := blocks[0];
      var (named, found) := WriteNames(RowsOf(sheets, kind), NumberList(block.rows), req.dramaName);
      if !found then (WithRows(sheets, kind, named), Failed(wrote))
      else
        var testNumber := TestNumber(block, req.includeTest);
        var (flagged, marked) := if testNumber.Some? then WriteFlag(named, testNumber.value) else (named, true);
        var after := WithRows(sheets, kind, flagged);
        if !marked then (after, Failed(true))
        else if !WriteConfirmed(block.rows, flagged, req.dramaName, testNumber) then (after, Mismatch)
        else WriteBlocks(after, blocks[1..], req, true)
  }

  /** Whether a confirmed assignment is recorded at all. */
  predicate Records(st: State, req: Request) {
    st.uses.Some? && req.taskId.Some? && req.day.Some?
  }

  function CidList(accounts: seq<Account>): seq<string> {
    seq(|accounts|, i requires 0 <= i < |accounts| => accounts[i].cid)
  }

  /** record_confirmed: refuse repeated or already used CIDs, else add them for the day. */
  ghost function Record(uses: Uses, day: int, cids: seq<string>): Option<Uses> {
    if !Distinct(cids) || UsedOn(uses, day) * Members(cids) != {} then None
    else Some(uses + set cid | cid in cids :: (day, cid))
  }

  ghost function Commit(st: State, req: Request, blocks: seq<(Kind, Block)>, accounts: seq<Account>): (State, Outcome) {
    if exists i :: 0 <= i < |blocks| && !StillAvailable(blocks[i].1.rows, RowsOf(st.sheets, blocks[i].0))
    then (st, Outcome(Status.Conflict, accounts))
    else
      var (sheets, writing) := WriteBlocks(st.sheets, blocks, req, false);
      var after := st.(sheets := sheets);
      match writing
      case Mismatch => (after, Outcome(PartialWrite, accounts))
      case Failed(wrote) => (after, Outcome(if wrote then PartialWrite else Status.Conflict, accounts))
      case Written =>
        if !Records(st, req) then (after, Outcome(Confirmed, accounts))
        else
          match Record(st.uses.value, req.day.value, CidList(accounts))
          case None => (after, Outcome(PartialWrite, accounts))
          case Some(uses) => (after.(uses := Some(uses)), Outcome(Confirmed, accounts))
  }

  /** The state the blocks are committed in: a real run has appended its rows by then. */
  function AfterAppends(st: State, plan: Plan, dryRun: bool): State {
    if dryRun then st
    else st.(sheets := Sheets(st.sheets.iaa + plan.iaaAdded, st.sheets.iap + plan.iapAdded))
  }

  ghost function Assign(st: State, req: Request): (State, Outcome) {
    var plan := MakePlan(st, req);
    var after := AfterAppends(st, plan, req.dryRun);
    if plan.failure.Some? then (after, Outcome(plan.failure.value, []))
    else
      var blocks := Blocks(plan);
      var accounts := AllAccounts(blocks, req.includeTest);
      if !Accepts(req, accounts) then (after, Outcome(Status.Conflict, accounts))
      else if req.dryRun then (after, Outcome(DryRun, accounts))
      else Commit(after, req, blocks, accounts)
  }
}
