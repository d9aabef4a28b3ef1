/** The import service over a sheet and a run table that change with every call. */
module DramaImportService {
  import opened Basics
  import opened Text
  import opened DramaImport
  import opened DramaImportRuns

  class DramaSheet {
    const how: Conventions
    var rows: seq<Cells>
    var revision: int

    constructor (how: Conventions, rows: seq<Cells>, revision: int)
      ensures this.how == how && this.rows == rows && this.revision == revision
    {
      this.how, this.rows, this.revision := how, rows, revision;
    }

    ghost function Now(): Sheet
      reads this
    {
      Sheet(rows, revision)
    }

    /** Rows 2 to count + 1, each as 14 cells. */
    method ReadTop(count: nat) returns (top: seq<Cells>)
      ensures top == TopRows(Now(), count)
    {
      top := [];
      var n := if count <= |rows| then count else |rows|;
      for i := 0 to n
        invariant top == TopRows(Now(), count)[..i]
      {
        top := top + [Padded(rows[i], 14)];
      }
    }

    /** Insert below the header, unless the sheet changed since `expectedRevision`; then accept rows already on top. */
    method InsertPrivateRows(added: seq<PrivateRow>, expectedRevision: int, fault: Fault, bump: nat)
        returns (answer: Result<InsertResult>)
      modifies this
      ensures (Now(), answer) == Insert(how, old(Now()), added, expectedRevision, fault, bump)
    {
      if added == [] {
        return Ok(InsertResult(0, [], true));
      }
      if fault == BeforeWrite {
        return Err(External);
      }
      var expected := Readbacks(how, added);
      if revision != expectedRevision {
        if fault == AfterWrite {
          return Err(External);
        }
        var actual := ReadTop(|added|);
        if actual == expected {
          return Ok(Inserted(|added|));
        }
        return Err(Conflict);
      }
      rows := expected + rows;
      revision := revision + 1 + bump;
      if fault == AfterWrite {
        return Err(External);
      }
      var actual := ReadTop(|added|);
      forall i | 0 <= i < |added| ensures Padded(rows[i], 14) == expected[i] {
        assert rows[i] == expected[i];
      }
      assert actual == expected;
      answer := Ok(Inserted(|added|));
    }
  }

  /** The stored runs; `Claim` is the conditional update that only one confirmation wins. */
  class RunRepository {
    var runs: map<string, Run>

    constructor ()
      ensures runs == map[]
    {
      runs := map[];
    }

    method Add(id: string, run: Run)
      modifies this
      ensures runs == old(runs)[id := run]
    {
      runs := runs[id := run];
    }

    method Claim(id: string) returns (claimed: Option<Run>)
      modifies this
      ensures claimed.Some? <==> id in old(runs) && old(runs)[id].status == Previewed
      ensures claimed.Some? ==>
        runs == old(runs)[id := claimed.value] && claimed.value == old(runs)[id].(status := Running)
      ensures claimed.None? ==> runs == old(runs)
    {
      if id !in runs || runs[id].status != Previewed {
        return None;
      }
      runs := runs[id := runs[id].(status := Running)];
      claimed := Some(runs[id]);
    }

    method Complete(id: string, result: InsertResult)
      requires id in runs
      modifies this
      ensures runs == old(runs)[id := old(runs)[id].(status := Completed(result))]
    {
      runs := runs[id := runs[id].(status := Completed(result))];
    }

    method Fail(id: string)
      requires id in runs
      modifies this
      ensures runs == old(runs)[id := old(runs)[id].(status := Failed)]
    {
      runs := runs[id := runs[id].(status := Failed)];
    }
  }

  class ImportService {
    const sheet: DramaSheet
    const repository: RunRepository
    ghost var written: seq<string>

    constructor (sheet: DramaSheet, repository: RunRepository)
      ensures this.sheet == sheet && this.repository == repository && written == []
    {
      this.sheet, this.repository, this.written := sheet, repository, [];
    }

    ghost function Now(): State
      reads this, sheet, repository
    {
      State(sheet.Now(), repository.runs, written)
    }

    /** Read both sheets and store what an import would add. */
    method Preview(id: string, publicRows: seq<PublicRow>, day: Day, operatorName: string, matchGroup: bool)
        returns (answer: Result<ImportPreview>)
      modifies repository
      ensures (Now(), answer) == MakePreview(sheet.how, old(Now()), id, publicRows, day, operatorName, matchGroup)
    {
      answer := BuildImportPreview(sheet.how, publicRows, sheet.rows, day, operatorName, matchGroup);
      if answer.Ok? {
        repository.Add(id, Run(answer.value, sheet.revision, Previewed));
      }
    }

    /** Confirm against stored runs: claim the run, insert its rows once, and keep the result or the failure. */
    method ConfirmPersisted(id: string, fault: Fault, bump: nat) returns (answer: Result<InsertResult>)
      modifies this, sheet, repository
      ensures (Now(), answer) == Confirm(sheet.how, old(Now()), id, fault, Recorded, bump)
    {
      hide Insert;
      if id !in repository.runs {
        return Err(NotFound);
      }
      var existing := repository.runs[id];
      if existing.status.Completed? {
        return Ok(existing.status.result);
      }
      var claimed := repository.Claim(id);
      if claimed.None? {
        return Err(Conflict);
      }
      ghost var before := sheet.Now();
      answer := sheet.InsertPrivateRows(claimed.value.preview.rows, claimed.value.expectedRevision, fault, bump);
      if sheet.Now() != before {
        written := written + [id];
      }
      match answer {
        case Err(_) =>
          repository.Fail(id);
          assert repository.runs == old(repository.runs)[id := existing.(status := Failed)];
        case Ok(result) =>
          repository.Complete(id, result);
          assert repository.runs == old(repository.runs)[id := existing.(status := Completed(result))];
      }
    }

    /** Confirm against runs kept in memory: a failed insertion leaves the preview pending. */
    method ConfirmInMemory(id: string, fault: Fault, bump: nat) returns (answer: Result<InsertResult>)
      requires id in repository.runs ==> repository.runs[id].status.Previewed? || repository.runs[id].status.Completed?
      modifies this, sheet, repository
      ensures id in old(repository.runs) ==> (Now(), answer) == Confirm(sheet.how, old(Now()), id, fault, Undone, bump)
      ensures id !in old(repository.runs) ==> Now() == old(Now()) && answer == Err(Invalid)
    {
      hide Insert;
      if id !in repository.runs {
        return Err(Invalid);
      }
      var pending := repository.runs[id];
      if pending.status.Completed? {
        return Ok(pending.status.result);
      }
      ghost var before := sheet.Now();
      answer := sheet.InsertPrivateRows(pending.preview.rows, pending.expectedRevision, fault, bump);
      if sheet.Now() != before {
        written := written + [id];
      }
      if answer.Ok? {
        repository.Complete(id, answer.value);
      } else {
        assert repository.runs[id := pending.(status := Previewed)] == repository.runs;
      }
    }
  }
}
