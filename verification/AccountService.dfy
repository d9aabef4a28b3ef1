/** The assignment service at work: the sheet and the usage table as objects, changed call by call. */
module AccountService {
  import opened Basics
  import opened Sorting
  import opened AccountSheets
  import opened AccountAllocation
  import opened AccountAssignment

  /** The last row index for each row number. */
  method IndexByNumber(rows: Sheet) returns (byRow: map<int, nat>)
    ensures forall n :: n in byRow <==> LastWith(rows, n).Some?
    ensures forall n :: n in byRow ==> LastWith(rows, n) == Some(byRow[n])
  {
    byRow := map[];
    for i := 0 to |rows|
      invariant forall n :: n in byRow <==> LastWith(rows[..i], n).Some?
      invariant forall n :: n in byRow ==> LastWith(rows[..i], n) == Some(byRow[n])
    {
      assert rows[..i + 1][..i] == rows[..i];
      byRow := byRow[rows[i].rowNumber := i];
    }
    assert rows[..|rows|] == rows;
  }

  /** The account sheet kept in memory. */
  class Feishu {
    var tables: Sheets

    constructor (tables: Sheets)
      ensures this.tables == tables
    {
      this.tables := tables;
    }

    method ReadAccountRows(kind: Kind) returns (rows: Sheet)
      ensures rows == RowsOf(tables, kind)
    {
      rows := RowsOf(tables, kind);
    }

    /** Name every numbered row; `found` is false when a number has no row, and the rows before it stay written. */
    method WriteAccountNames(kind: Kind, numbers: seq<int>, name: string) returns (found: bool)
      modifies this
      ensures (RowsOf(tables, kind), found) == WriteNames(RowsOf(old(tables), kind), numbers, name)
      ensures tables == WithRows(old(tables), kind, RowsOf(tables, kind))
    {
      var rows := RowsOf(tables, kind);
      var byRow := IndexByNumber(rows);
      for i := 0 to |numbers|
        invariant tables == WithRows(old(tables), kind, RowsOf(tables, kind))
        invariant |RowsOf(tables, kind)| == |rows|
        invariant forall k :: 0 <= k < |rows| ==> RowsOf(tables, kind)[k].rowNumber == rows[k].rowNumber
        invariant WriteNames(rows, numbers, name) == WriteNames(RowsOf(tables, kind), numbers[i..], name)
      {
        assert numbers[i..][1..] == numbers[i + 1..];
        var current := RowsOf(tables, kind);
        SameNumbersSameLast(rows, current, numbers[i]);
        if numbers[i] !in byRow {
          return false;
        }
        var k := byRow[numbers[i]];
        tables := WithRows(tables, kind, current[k := current[k].(dramaName := name)]);
      }
      found := true;
    }

    method WriteAccountTestFlag(kind: Kind, number: int) returns (found: bool)
      modifies this
      ensures (RowsOf(tables, kind), found) == WriteFlag(RowsOf(old(tables), kind), number)
      ensures tables == WithRows(old(tables), kind, RowsOf(tables, kind))
    {
      var rows := RowsOf(tables, kind);
      var byRow := IndexByNumber(rows);
      if number !in byRow {
        return false;
      }
      var k := byRow[number];
      tables := WithRows(tables, kind, rows[k := rows[k].(isTest := true)]);
      found := true;
    }

    method AppendAccountBlock(kind: Kind, last: int, template: Sheet) returns (appended: Sheet)
      modifies this
      ensures appended == Appended(last, template)
      ensures tables == WithRows(old(tables), kind, RowsOf(old(tables), kind) + appended)
    {
      appended := PreviewAppendedRows(last, template);
      tables := WithRows(tables, kind, RowsOf(tables, kind) + appended);
    }
  }

  method PreviewAppendedRows(last: int, template: Sheet) returns (preview: Sheet)
    ensures preview == Appended(last, template)
  {
    preview := [];
    for i := 0 to |template|
      invariant preview == Appended(last, template)[..i]
    {
      preview := preview + [template[i].(rowNumber := last + i + 1, isTest := false, dramaName := "")];
    }
  }

  /** The table of confirmed uses. */
  class AccountUsageRepository {
    var uses: Uses

    method UsedCids(day: int) returns (cids: set<string>)
      ensures cids == UsedOn(uses, day)
    {
      cids := set u | u in uses && u.0 == day :: u.1;
    }

    /** Refuse a list with repeated or already used CIDs, and change nothing then. */
    method RecordConfirmed(day: int, cids: seq<string>) returns (recorded: bool)
      modifies this
      ensures Record(old(uses), day, cids) == if recorded then Some(uses) else None
      ensures !recorded ==> uses == old(uses)
    {
      var seen := {};
      for i := 0 to |cids|
        invariant seen == Members(cids[..i]) && Distinct(cids[..i]) && uses == old(uses)
      {
        assert cids[..i + 1] == cids[..i] + [cids[i]];
        MembersAppend(cids[..i], cids[i]);
        if cids[i] in seen {
          var j :| 0 <= j < i && cids[..i][j] == cids[i];
          assert cids[j] == cids[i];
          return false;
        }
        seen := seen + {cids[i]};
      }
      assert cids[..|cids|] == cids;
      var used := UsedCids(day);
      assert UsedOn(uses, day) * Members(cids) == used * seen;
      if used * seen != {} {
        return false;
      }
      uses := uses + set cid | cid in cids :: (day, cid);
      recorded := true;
    }
  }

  method OccupiedCids(rows: Sheet) returns (cids: set<string>)
    ensures cids == Occupied(rows)
  {
    cids := set row | row in rows && row.dramaName != "" :: row.cid;
  }

  method LastRowNumber(rows: Sheet) returns (last: int)
    ensures last == MaxNumber(rows)
  {
    last := MaxNumber(rows);
  }

  method CheckCopyable(rows: Sheet, start: nat, groups: seq<string>, used: set<string>) returns (copyable: bool)
    requires start + |groups| <= |rows|
    ensures copyable == CopyableAt(rows, start, groups, used)
  {
    hide Copyable;
    for i := 0 to |groups|
      invariant forall j :: 0 <= j < i ==> Copyable(rows[start + j], groups[j], used)
    {
      if !Copyable(rows[start + i], groups[i], used) {
        return false;
      }
    }
    copyable := true;
  }

  method LatestAppendTemplate(rows: Sheet, definition: Patterns, used: set<string>) returns (template: Option<Sheet>)
    ensures template == LatestTemplate(rows, Groups(definition), used, |rows| - |Groups(definition)|)
  {
    hide Groups, CopyableAt;
    var groups := Groups(definition);
    var start := |rows| - |groups|;
    while start >= 0
      invariant start <= |rows| - |groups|
      invariant LatestTemplate(rows, groups, used, |rows| - |groups|) == LatestTemplate(rows, groups, used, start)
      decreases start
    {
      var copyable := CheckCopyable(rows, start, groups, used);
      if copyable {
        return Some(rows[start..start + |groups|]);
      }
      start := start - 1;
    }
    template := None;
  }

  method CheckAvailable(expected: Sheet, latest: Sheet) returns (available: bool)
    ensures available == StillAvailable(expected, latest)
  {
    var byRow := IndexByNumber(latest);
    for i := 0 to |expected|
      invariant forall j :: 0 <= j < i ==> RowStillAvailable(expected[j], latest)
    {
      if expected[i].rowNumber !in byRow {
        return false;
      }
      var current := latest[byRow[expected[i].rowNumber]];
      if current.cid != expected[i].cid || current.group != expected[i].group || !current.enabled
          || current.dramaName != "" {
        return false;
      }
    }
    available := true;
  }

  method CheckWritten(expected: Sheet, latest: Sheet, dramaName: string, testNumber: Option<int>)
      returns (confirmed: bool)
    ensures confirmed == WriteConfirmed(expected, latest, dramaName, testNumber)
  {
    var byRow := IndexByNumber(latest);
    for i := 0 to |expected|
      invariant forall j :: 0 <= j < i ==> RowWritten(expected[j], latest, dramaName, testNumber)
    {
      if expected[i].rowNumber !in byRow {
        return false;
      }
      var current := latest[byRow[expected[i].rowNumber]];
      if current.cid != expected[i].cid || current.dramaName != dramaName
        || (testNumber == Some(expected[i].rowNumber) && !current.isTest)
      {
        return false;
      }
    }
    confirmed := true;
  }

  function PatternsFor(kind: Kind, required: set<string>): Patterns {
    if kind == Iaa then IAA_BLOCK else IapPatterns(required)
  }

  function DefinitionOf(kind: Kind): Patterns {
    if kind == Iaa then IAA_BLOCK else IAP_BLOCK
  }

  class AccountAssignmentService {
    const feishu: Feishu
    const usageRepo: AccountUsageRepository?

    constructor (feishu: Feishu, usageRepo: AccountUsageRepository?)
      ensures this.feishu == feishu && this.usageRepo == usageRepo
    {
      this.feishu := feishu;
      this.usageRepo := usageRepo;
    }

    ghost function Now(): State
      reads this, feishu, usageRepo
    {
      State(feishu.tables, if usageRepo == null then None else Some(usageRepo.uses))
    }

    method Find(kind: Kind, rows: Sheet, taken: set<string>, required: set<string>) returns (block: Option<Block>)
      requires kind == Iap ==> IapPatterns(required) != []
      ensures block == FindBlock(rows, Groups(PatternsFor(kind, required)), taken)
    {
      if kind == Iaa {
        block := FindBlockIn(rows, IAA_BLOCK, taken);
      } else {
        block := FindIapBlock(rows, taken, required);
      }
    }

    /** Copy the latest complete block; a rehearsal only computes the copies. */
    method AppendAndAllocate(kind: Kind, rows: Sheet, used: set<string>, required: set<string>, req: Request)
        returns (planned: Planned)
      requires rows == RowsOf(feishu.tables, kind)
      requires kind == Iap ==> IapPatterns(required) != []
      modifies feishu
      ensures planned == PlanAppended(kind, rows, Groups(PatternsFor(kind, required)), DefinitionOf(kind), used, req)
      ensures feishu.tables
          == WithRows(old(feishu.tables), kind, rows + if planned.Planned? && !req.dryRun then planned.added else [])
    {
      hide FindBlock, LatestTemplate, MaxNumber, Appended, Groups, PatternsFor, AccountsOf;
      assert rows + [] == rows;
      assert WithRows(feishu.tables, kind, rows) == feishu.tables;
      var template := LatestAppendTemplate(rows, DefinitionOf(kind), used);
      if template.None? {
        return NoBlock;
      }
      var last := LastRowNumber(rows);
      var previewRows := PreviewAppendedRows(last, template.value);
      var preview := Find(kind, previewRows, used, required);
      if preview.None? {
        return NoBlock;
      }
      if req.validator.Some? && !req.validator.value(AccountsOf(kind, preview.value, req.includeTest)) {
        return Refused;
      }
      if req.dryRun {
        return Planned(preview.value, previewRows);
      }
      var appended := feishu.AppendAccountBlock(kind, last, template.value);
      var block := Find(kind, appended, used, required);
      planned := Planned(block.value, appended);
    }

    /** The block for one sheet: found among its rows, or appended. */
    method PlanSheet(kind: Kind, rows: Sheet, reserved: set<string>, used: set<string>, required: set<string>,
        req: Request)
      returns (planned: Planned)
      requires rows == RowsOf(feishu.tables, kind)
      requires kind == Iap ==> IapPatterns(required) != []
      modifies feishu
      ensures planned == PlanBlock(kind, rows, Groups(PatternsFor(kind, required)), DefinitionOf(kind), reserved, used,
          req)
      ensures feishu.tables
          == WithRows(old(feishu.tables), kind, rows + if planned.Planned? && !req.dryRun then planned.added else [])
    {
      hide FindBlock, PlanAppended, Groups, PatternsFor;
      assert rows + [] == rows;
      var block := Find(kind, rows, reserved, required);
      if block.Some? {
        return Planned(block.value, []);
      }
      planned := AppendAndAllocate(kind, rows, used, required, req);
    }

    /** Write the planned blocks one after the other, each checked by reading it back. */
    method WritePlanned(planned: seq<(Kind, Block)>, req: Request) returns (writing: Writing)
      modifies feishu
      ensures (feishu.tables, writing) == WriteBlocks(old(feishu.tables), planned, req, false)
    {
      hide WriteNames, WriteFlag, WriteConfirmed;
      for i := 0 to |planned|
        invariant WriteBlocks(old(feishu.tables), planned, req, false)
            == WriteBlocks(feishu.tables, planned[i..], req, i > 0)
      {
        assert planned[i..][0] == planned[i] && planned[i..][1..] == planned[i + 1..];
        var (kind, block) := planned[i];
        var found := feishu.WriteAccountNames(kind, NumberList(block.rows), req.dramaName);
        if !found {
          return Failed(i > 0);
        }
        var testNumber := None;
        if req.includeTest && block.testRow.Some? {
          testNumber := Some(block.testRow.value.rowNumber);
          var marked := feishu.WriteAccountTestFlag(kind, testNumber.value);
          if !marked {
            return Failed(true);
          }
        }
        var readBack := feishu.ReadAccountRows(kind);
        var confirmed := CheckWritten(block.rows, readBack, req.dramaName, testNumber);
        if !confirmed {
          return Mismatch;
        }
      }
      writing := Written;
    }

    /** Check every block again, write, read back, and record the uses. */
    method CommitPlanned(planned: seq<(Kind, Block)>, accounts: seq<Account>, req: Request) returns (outcome: Outcome)
      modifies feishu, usageRepo
      ensures (Now(), outcome) == Commit(old(Now()), req, planned, accounts)
    {
      hide StillAvailable, WriteBlocks;
      for i := 0 to |planned|
        invariant Now() == old(Now())
        invariant forall j :: 0 <= j < i ==> StillAvailable(planned[j].1.rows, RowsOf(feishu.tables, planned[j].0))
      {
        var latest := feishu.ReadAccountRows(planned[i].0);
        var available := CheckAvailable(planned[i].1.rows, latest);
        if !available {
          return Outcome(Status.Conflict, accounts);
        }
      }
      var writing := WritePlanned(planned, req);
      match writing {
        case Mismatch =>
          return Outcome(PartialWrite, accounts);
        case Failed(wrote) =>
          return Outcome(if wrote then PartialWrite else Status.Conflict, accounts);
        case Written =>
      }
      if usageRepo != null && req.taskId.Some? && req.day.Some? {
        var recorded := usageRepo.RecordConfirmed(req.day.value, CidList(accounts));
        if !recorded {
          return Outcome(PartialWrite, accounts);
        }
      }
      outcome := Outcome(Confirmed, accounts);
    }

    method CidsUsedToday(req: Request) returns (used: set<string>)
      ensures used == UsedToday(Now(), req)
    {
      used := req.heldCids;
      if usageRepo != null && req.day.Some? {
        var today := usageRepo.UsedCids(req.day.value);
        used := used + today;
      }
    }

    lemma PaidTypesHavePatterns(links: map<string, string>)
      ensures PaidTypes(links) != {} ==> IapPatterns(PaidTypes(links)) != []
    {
    }

    /** Plan the blocks sheet by sheet; a real run appends rows on the way. */
    method PlanAll(req: Request) returns (planned: seq<(Kind, Block)>, failure: Option<Status>)
      modifies feishu
      ensures var plan := MakePlan(old(Now()), req);
        && failure == plan.failure
        && Now() == AfterAppends(old(Now()), plan, req.dryRun)
        && (failure.None? ==> planned == Blocks(plan))
    {
      hide PlanBlock, Groups, Cids, Occupied, UsedOn, UsedToday, AccountsOf, Wants, PaidTypes, IapPatterns;
      ghost var start := Now();
      assert start.sheets.iaa + [] == start.sheets.iaa && start.sheets.iap + [] == start.sheets.iap;
      planned := [];
      var used := CidsUsedToday(req);
      var reserved := used;
      if Wants(req.links, "IAA") {
        var rows := feishu.ReadAccountRows(Iaa);
        var occupied := OccupiedCids(rows);
        reserved := reserved + occupied;
        var first := PlanSheet(Iaa, rows, reserved, used, {}, req);
        assert first == PlanIaa(start, req);
        if first.Refused? {
          return [], Some(Status.Conflict);
        }
        if first.NoBlock? {
          return [], Some(Unavailable);
        }
        planned := [(Iaa, first.block)];
        used := used + Cids(first.block.rows);
        reserved := reserved + Cids(first.block.rows);
      }
      var paidTypes := PaidTypes(req.links);
      if paidTypes != {} {
        PaidTypesHavePatterns(req.links);
        var rows := feishu.ReadAccountRows(Iap);
        var occupied := OccupiedCids(rows);
        reserved := reserved + occupied;
        var second := PlanSheet(Iap, rows, reserved, used, paidTypes, req);
        ghost var iaa := if planned == [] then None else Some(planned[0].1);
        assert reserved == UsedToday(start, req) + (if iaa.Some? then Cids(iaa.value.rows) else {})
          + (if Wants(req.links, "IAA") then Occupied(start.sheets.iaa) else {}) + Occupied(start.sheets.iap);
        assert used == UsedToday(start, req) + (if iaa.Some? then Cids(iaa.value.rows) else {});
        assert second == PlanIap(start, req, iaa);
        if second.Refused? {
          return [], Some(Status.Conflict);
        }
        if second.NoBlock? {
          return [], Some(Unavailable);
        }
        planned := planned + [(Iap, second.block)];
      }
      failure := if planned == [] then Some(Unavailable) else None;
    }

    method Assign(req: Request) returns (outcome: Outcome)
      modifies feishu, usageRepo
      ensures (Now(), outcome) == AccountAssignment.Assign(old(Now()), req)
    {
      hide MakePlan, Commit, AllAccounts, Blocks;
      var planned, failure := PlanAll(req);
      if failure.Some? {
        return Outcome(failure.value, []);
      }
      var accounts := AllAccounts(planned, req.includeTest);
      if !Accepts(req, accounts) {
        return Outcome(Status.Conflict, accounts);
      }
      if req.dryRun {
        return Outcome(DryRun, accounts);
      }
      outcome := CommitPlanned(planned, accounts, req);
    }
  }
}
