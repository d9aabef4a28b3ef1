/** What a scan leaves in the task table, in terms of the fetched rows and the tasks there were. */
module ScanOutcome {
  import opened Basics
  import opened QueueStates
  import opened Records
  import opened QueueTable
  import opened QueueOperations
  import opened Scheduling
  import opened SchedulingProofs
  import opened Sorting

  // ---- a task and its row ----

  /** The task shows what the row says. */
  predicate Shows(task: DramaTask, row: DramaTask) {
    && task.sheetRow == row.sheetRow && task.dramaName == row.dramaName
    && task.platform == row.platform && task.availableTime == row.availableTime
    && (row.linkStatus == Validated && row.linkSet != map[] ==>
      task.linkSet == row.linkSet && task.linkStatus == Validated)
  }

  /** What is the task's own is as before. */
  predicate KeepsOwn(before: DramaTask, after: DramaTask) {
    && after.id == before.id && after.owner == before.owner && after.status == before.status
    && after.deliveryDramaId == before.deliveryDramaId && after.promotionConfigs == before.promotionConfigs
    && after.currentStage == before.currentStage && after.targetStage == before.targetStage
    && after.matchConfirmed == before.matchConfirmed
  }

  /** Validated links of the task keep their sources; links change only when the row brings validated ones. */
  predicate TakesLinks(before: DramaTask, after: DramaTask, row: DramaTask) {
    && after.sourceLinks == (if before.linkStatus == Validated then before.sourceLinks else row.sourceLinks)
    && (row.linkStatus != Validated || row.linkSet == map[] ==>
      after.linkSet == before.linkSet && after.linkStatus == before.linkStatus)
  }

  /** A task as a row creates it. */
  predicate StartsFrom(task: DramaTask, row: DramaTask) {
    && task.owner == row.owner && task.status == Waiting
    && task.sourceLinks == row.sourceLinks && task.linkSet == row.linkSet && task.linkStatus == row.linkStatus
    && task.currentStage == WaitingAvailableTime && task.targetStage == LinksReady
    && task.deliveryDramaId == "" && task.promotionConfigs == map[] && !task.matchConfirmed
  }

  /** The task `id` is the row's: synced with it, or created from it. */
  predicate Reflects(before: Tasks, after: Tasks, row: DramaTask, id: string) {
    && id in after && after[id].id == id && after[id].sourceKey == row.sourceKey && Shows(after[id], row)
    && (if id in before then KeepsOwn(before[id], after[id]) && TakesLinks(before[id], after[id], row)
        else StartsFrom(after[id], row))
  }

  // ---- one row ----

  predicate SameRow(task: DramaTask, row: DramaTask) {
    && task.dramaName == row.dramaName && task.availableTime == row.availableTime && task.platform == row.platform
    && task.status !in {TaskStatus.Cancelled, TaskStatus.Completed, TaskStatus.DryRun}
  }

  /**
   * Which task a row goes to: the only one with its key; else the only unfinished one of its name, time and
   * platform; else the one named by the row; else a new one under a fresh id.
   */
  ghost predicate GoesTo(tasks: Tasks, row: DramaTask, uuid: string, id: string) {
    && (forall x, y :: x in tasks && y in tasks && tasks[x].sourceKey == tasks[y].sourceKey == row.sourceKey ==> x == y)
    && if exists x :: x in tasks && tasks[x].sourceKey == row.sourceKey then
         id in tasks && tasks[id].sourceKey == row.sourceKey
       else if exists x :: x in tasks && SameRow(tasks[x], row) then
         id in tasks && SameRow(tasks[id], row) && forall x :: x in tasks && SameRow(tasks[x], row) ==> x == id
       else if row.id in tasks then id == row.id
       else id == uuid && id !in tasks
  }

  lemma UpsertGoesTo(db: Db, row: DramaTask, uuids: Uuids)
    requires Keyed(db) && row.sourceKey != "" && Upsert(db.tasks, row, uuids).Ok?
    ensures GoesTo(db.tasks, row, uuids.taskId, Upsert(db.tasks, row, uuids).value.1.id)
  {
    hide Synced;
    var task := Upsert(db.tasks, row, uuids).value.1;
    assert forall x :: x in db.tasks ==>
      (x in WithKey(db.tasks, row.sourceKey) <==> db.tasks[x].sourceKey == row.sourceKey);
    assert forall x :: x in db.tasks ==> (x in InSlot(db.tasks, row) <==> SameRow(db.tasks[x], row));
    SyncedKeepsId(db.tasks, row);
  }

  lemma SyncedKeepsId(tasks: Tasks, row: DramaTask)
    ensures forall task :: Synced(task, row).id == task.id
  {
  }

  /** What the lookup finds is a stored task, but for its key. */
  lemma FoundIsStored(db: Db, row: DramaTask)
    requires Keyed(db)
    ensures var found := FindExisting(db.tasks, row);
      found.Ok? && found.value.Some? ==>
        && found.value.value.id in db.tasks
        && found.value.value == db.tasks[found.value.value.id].(sourceKey := found.value.value.sourceKey)
  {
    hide SameSlot, Matchable;
  }

  lemma SyncedShows(existing: DramaTask, row: DramaTask)
    requires row.sourceKey != ""
    ensures var task := Synced(existing, row);
      && task.id == existing.id && task.sourceKey == row.sourceKey
      && Shows(task, row) && KeepsOwn(existing, task) && TakesLinks(existing, task, row)
  {
  }

  lemma SyncedReflects(before: Tasks, after: Tasks, existing: DramaTask, row: DramaTask)
    requires existing.id in before && before[existing.id].id == existing.id && row.sourceKey != ""
    requires existing == before[existing.id].(sourceKey := existing.sourceKey)
    requires existing.id in after && after[existing.id] == Synced(existing, row)
    ensures Reflects(before, after, row, existing.id)
  {
    hide Synced, Shows;
    SyncedShows(existing, row);
  }

  lemma NewReflects(before: Tasks, after: Tasks, row: DramaTask, uuid: string)
    requires row.sourceKey != "" && uuid !in before && uuid in after && after[uuid] == NewTask(row, uuid)
    ensures Reflects(before, after, row, uuid)
  {
  }

  lemma UpsertReflects(db: Db, row: DramaTask, uuids: Uuids)
    requires Keyed(db) && row.sourceKey != "" && Upsert(db.tasks, row, uuids).Ok?
    ensures var (tasks, task, created) := Upsert(db.tasks, row, uuids).value;
      && tasks == db.tasks[task.id := task] && Reflects(db.tasks, tasks, row, task.id)
      && (created <==> task.id !in db.tasks)
  {
    hide FindExisting, Synced, Reflects;
    FoundIsStored(db, row);
    SyncedKeepsId(db.tasks, row);
    var (tasks, task, created) := Upsert(db.tasks, row, uuids).value;
    match FindExisting(db.tasks, row) {
      case Ok(Some(existing)) => SyncedReflects(db.tasks, tasks, existing, row);
      case Ok(None) => NewReflects(db.tasks, tasks, row, uuids.taskId);
    }
  }

  ghost predicate SomeWithKey(tasks: Tasks, row: DramaTask) {
    exists x :: x in tasks && tasks[x].sourceKey == row.sourceKey
  }

  ghost predicate SomeOfSlot(tasks: Tasks, row: DramaTask) {
    exists x :: x in tasks && SameRow(tasks[x], row)
  }

  ghost predicate TwoWithKey(tasks: Tasks, row: DramaTask) {
    exists x, y :: x in tasks && y in tasks && x != y && tasks[x].sourceKey == tasks[y].sourceKey == row.sourceKey
  }

  ghost predicate TwoOfSlot(tasks: Tasks, row: DramaTask) {
    exists x, y :: x in tasks && y in tasks && x != y && SameRow(tasks[x], row) && SameRow(tasks[y], row)
  }

  /**
   * A row fails exactly when its lookup is ambiguous, by key or, without a task of that key, by name, time and
   * platform, or when a new task draws an id in use.
   */
  lemma RowFailsExactly(db: Db, row: DramaTask, uuids: Uuids)
    requires Keyed(db) && row.sourceKey != ""
    ensures Upsert(db.tasks, row, uuids).Err? <==>
      || TwoWithKey(db.tasks, row)
      || (!SomeWithKey(db.tasks, row)
          && (|| TwoOfSlot(db.tasks, row)
              || (!SomeOfSlot(db.tasks, row) && row.id !in db.tasks && uuids.taskId in db.tasks)))
    ensures Upsert(db.tasks, row, uuids).Err? ==> Upsert(db.tasks, row, uuids).error == Integrity
  {
    hide Synced, OneRow, WithKey, InSlot, TwoWithKey, SomeWithKey, TwoOfSlot, SomeOfSlot;
    LookupSays(db.tasks, row);
  }

  lemma LookupSays(tasks: Tasks, row: DramaTask)
    ensures OneRow(WithKey(tasks, row.sourceKey)).Missing? <==> !SomeWithKey(tasks, row)
    ensures OneRow(WithKey(tasks, row.sourceKey)).Ambiguous? <==> TwoWithKey(tasks, row)
    ensures OneRow(InSlot(tasks, row)).Missing? <==> !SomeOfSlot(tasks, row)
    ensures OneRow(InSlot(tasks, row)).Ambiguous? <==> TwoOfSlot(tasks, row)
  {
    hide OneRow;
    var keys, slots := WithKey(tasks, row.sourceKey), InSlot(tasks, row);
    assert forall x :: x in tasks ==> (x in keys <==> tasks[x].sourceKey == row.sourceKey);
    assert forall x :: x in tasks ==> (x in slots <==> SameRow(tasks[x], row));
    OneRowSays(keys);
    OneRowSays(slots);
    assert SomeWithKey(tasks, row) <==> keys != {};
    assert SomeOfSlot(tasks, row) <==> slots != {};
    assert TwoWithKey(tasks, row) <==> exists x, y :: x in keys && y in keys && x != y;
    assert TwoOfSlot(tasks, row) <==> exists x, y :: x in slots && y in slots && x != y;
  }

  /**
   * A row without a source key goes to the only unfinished task of its name, time and platform, which loses its own
   * key, else to the task it is named after, which keeps its key, else to a new one under its own id.
   */
  lemma KeylessRowGoes(db: Db, row: DramaTask, uuids: Uuids)
    requires Keyed(db) && row.sourceKey == ""
    ensures Upsert(db.tasks, row, uuids).Err? <==> TwoOfSlot(db.tasks, row)
    ensures Upsert(db.tasks, row, uuids).Err? ==> Upsert(db.tasks, row, uuids).error == Integrity
    ensures Upsert(db.tasks, row, uuids).Ok? ==>
      var (tasks, task, created) := Upsert(db.tasks, row, uuids).value;
      && tasks == db.tasks[task.id := task] && Shows(task, row)
      && (created <==> !SomeOfSlot(db.tasks, row) && row.id !in db.tasks)
      && (if created then task.id == row.id && task.sourceKey == "" && StartsFrom(task, row)
          else task.id in db.tasks && KeepsOwn(db.tasks[task.id], task) && TakesLinks(db.tasks[task.id], task, row))
      && (SomeOfSlot(db.tasks, row) ==>
        task.sourceKey == "" && forall x :: x in db.tasks && SameRow(db.tasks[x], row) ==> x == task.id)
      && (!created && !SomeOfSlot(db.tasks, row) ==>
        task.id == row.id && task.sourceKey == db.tasks[row.id].sourceKey)
  {
    hide OneRow, InSlot, TwoOfSlot, SomeOfSlot, Synced, Shows, SameRow;
    LookupSays(db.tasks, row);
    SlotIsUnique(db.tasks, row);
    match FindExisting(db.tasks, row)
    case Ok(Some(existing)) => KeylessIsSynced(existing, row);
    case Ok(None) => NewShows(row, uuids.taskId);
    case Err(_) =>
  }

  lemma KeylessIsSynced(existing: DramaTask, row: DramaTask)
    requires row.sourceKey == ""
    ensures var task := Synced(existing, row);
      && task.id == existing.id && task.sourceKey == existing.sourceKey
      && Shows(task, row) && KeepsOwn(existing, task) && TakesLinks(existing, task, row)
  {
  }

  lemma NewShows(row: DramaTask, uuid: string)
    ensures Shows(NewTask(row, uuid), row)
  {
  }

  lemma SlotIsUnique(tasks: Tasks, row: DramaTask)
    ensures OneRow(InSlot(tasks, row)).Found? ==>
      var id := OneRow(InSlot(tasks, row)).id;
      id in tasks && forall x :: x in tasks && SameRow(tasks[x], row) ==> x == id
  {
    hide OneRow;
    assert forall x :: x in tasks && SameRow(tasks[x], row) ==> x in InSlot(tasks, row);
  }

  lemma OneRowSays(ids: set<string>)
    ensures OneRow(ids).Missing? <==> ids == {}
    ensures OneRow(ids).Ambiguous? <==> exists x, y :: x in ids && y in ids && x != y
  {
  }

  /** One row of a scan writes the one task it goes to. */
  ghost predicate RowScanned(before: Db, after: Db, row: DramaTask, uuid: string, id: string) {
    && after.tasks == before.tasks[id := if id in after.tasks then after.tasks[id] else row]
    && Reflects(before.tasks, after.tasks, row, id) && GoesTo(before.tasks, row, uuid, id)
  }

  lemma RowIsScanned(db: Db, row: DramaTask, uuids: Uuids, now: Time, counts: Counts)
    requires Keyed(db) && row.sourceKey != "" && SyncSource(db, row, uuids, now, counts).Ok?
    ensures var after := SyncSource(db, row, uuids, now, counts).value.0;
      Keyed(after) && exists id :: RowScanned(db, after, row, uuids.taskId, id)
  {
    hide Upsert, EnsureQueueItem, SyncSource, Reflects, GoesTo;
    SyncSourceValue(db, row, uuids, now, counts);
    SyncSourceIsKeyed(db, row, uuids, now, counts);
    UpsertReflects(db, row, uuids);
    UpsertGoesTo(db, row, uuids);
    var (tasks, task, created) := Upsert(db.tasks, row, uuids).value;
    EnsuringKeepsTasks(db.(tasks := tasks), task, uuids.itemId, now);
    assert RowScanned(db, SyncSource(db, row, uuids, now, counts).value.0, row, uuids.taskId, task.id);
  }

  lemma EnsuringKeepsTasks(db: Db, task: DramaTask, newId: string, now: Time)
    requires KeyedItems(db.items)
    ensures EnsureQueueItem(db, task, newId, now).Ok?
        ==> EnsureQueueItem(db, task, newId, now).value.0.tasks == db.tasks
  {
  }

  // ---- a scan whose rows have keys of their own ----

  /** Every task with the key of a scanned row shows that row. */
  ghost predicate ScannedShow(tasks: Tasks, scanned: set<DramaTask>) {
    forall id, p :: id in tasks && p in scanned && tasks[id].sourceKey == p.sourceKey ==> Shows(tasks[id], p)
  }

  lemma RowShows(before: Db, after: Db, scanned: set<DramaTask>, row: DramaTask, uuid: string, id: string)
    requires RowScanned(before, after, row, uuid, id) && ScannedShow(before.tasks, scanned)
    requires DistinctKeys(scanned + {row})
    ensures ScannedShow(after.tasks, scanned + {row})
    ensures forall x :: x in before.tasks ==> x in after.tasks && KeepsOwn(before.tasks[x], after.tasks[x])
  {
    forall x, p | x in after.tasks && p in scanned + {row} && after.tasks[x].sourceKey == p.sourceKey
      ensures Shows(after.tasks[x], p)
    {
      if x == id {
        assert p == row;
      } else {
        assert after.tasks[x] == before.tasks[x];
      }
    }
  }

  lemma OwnKeptTwice(x: Tasks, y: Tasks, z: Tasks)
    requires forall id :: id in x ==> id in y && KeepsOwn(x[id], y[id])
    requires forall id :: id in y ==> id in z && KeepsOwn(y[id], z[id])
    ensures forall id :: id in x ==> id in z && KeepsOwn(x[id], z[id])
  {
  }

  lemma {:induction false} ScanShows(db: Db, scanned: set<DramaTask>, fetch: seq<DramaTask>, uuids: seq<Uuids>,
                                     now: Time, counts: Counts)
    requires Keyed(db) && |uuids| == |fetch| && DistinctKeys(scanned + Members(fetch))
    requires ScannedShow(db.tasks, scanned)
    ensures var scan := Tick(db, fetch, uuids, now, counts); scan.Ok? ==>
      && ScannedShow(scan.value.0.tasks, scanned + Members(fetch))
      && forall id :: id in db.tasks ==> id in scan.value.0.tasks && KeepsOwn(db.tasks[id], scan.value.0.tasks[id])
    decreases |fetch|
  {
    hide ScannedShow, SyncSource, DistinctKeys, KeepsOwn, RowScanned;
    if fetch == [] {
      assert scanned + Members(fetch) == scanned;
      OwnKeptAtFirst(db.tasks);
    } else {
      var row, rest := fetch[0], fetch[1..];
      assert fetch == [row] + rest;
      assert scanned + Members(fetch) == (scanned + {row}) + Members(rest);
      FewerKeys(scanned + {row}, scanned + Members(fetch));
      KeysAreNotEmpty(scanned + {row});
      if SyncSource(db, row, uuids[0], now, counts).Ok? {
        var (after, counted) := SyncSource(db, row, uuids[0], now, counts).value;
        RowIsScanned(db, row, uuids[0], now, counts);
        var id :| RowScanned(db, after, row, uuids[0].taskId, id);
        RowShows(db, after, scanned, row, uuids[0].taskId, id);
        ScanShows(after, scanned + {row}, rest, uuids[1..], now, counted);
        if Tick(after, rest, uuids[1..], now, counted).Ok? {
          OwnKeptTwice(db.tasks, after.tasks, Tick(after, rest, uuids[1..], now, counted).value.0.tasks);
        }
      }
    }
  }

  lemma OwnKeptAtFirst(tasks: Tasks)
    ensures forall id :: id in tasks ==> KeepsOwn(tasks[id], tasks[id])
  {
  }

  lemma KeysAreNotEmpty(rows: set<DramaTask>)
    requires DistinctKeys(rows)
    ensures forall row :: row in rows ==> row.sourceKey != ""
  {
  }

  /**
   * After any scan of rows with distinct keys: a task with the key of a fetched row has that row's sheet row, name,
   * platform and time, and its validated links when it brings any; and what is a task's own is as before.
   */
  lemma ScanShowsEveryRow(db: Db, fetch: seq<DramaTask>, uuids: seq<Uuids>, now: Time)
    requires Keyed(db) && |uuids| == |fetch| && DistinctKeys(Members(fetch))
    requires Tick(db, fetch, uuids, now, NO_COUNTS).Ok?
    ensures var after := Tick(db, fetch, uuids, now, NO_COUNTS).value.0.tasks;
      && (forall id, row :: id in after && row in fetch && after[id].sourceKey == row.sourceKey ==>
        Shows(after[id], row))
      && (forall id :: id in db.tasks ==> id in after && KeepsOwn(db.tasks[id], after[id]))
  {
    hide Tick, DistinctKeys, Shows, KeepsOwn;
    assert {} + Members(fetch) == Members(fetch);
    ScanShows(db, {}, fetch, uuids, now, NO_COUNTS);
    assert forall row :: row in fetch ==> row in Members(fetch);
  }

  // ---- a scan without two rows of one name, time and platform ----

  /** No row of the fetch goes to the task. */
  predicate Apart(task: DramaTask, fetch: seq<DramaTask>) {
    forall i :: 0 <= i < |fetch| ==>
      task.sourceKey != fetch[i].sourceKey && !SameSlot(task, fetch[i]) && fetch[i].id != task.id
  }

  lemma ApartRowIsLeft(before: Db, after: Db, row: DramaTask, uuid: string, id: string, other: string)
    requires RowScanned(before, after, row, uuid, id) && other in before.tasks && before.tasks[other].id == other
    requires before.tasks[other].sourceKey != row.sourceKey && !SameSlot(before.tasks[other], row) && row.id != other
    ensures other in after.tasks && after.tasks[other] == before.tasks[other] && other != id
  {
  }

  lemma {:induction false} ApartTaskIsLeft(db: Db, fetch: seq<DramaTask>, uuids: seq<Uuids>, now: Time, counts: Counts,
                                           id: string)
    requires Keyed(db) && |uuids| == |fetch| && id in db.tasks && Apart(db.tasks[id], fetch)
    requires forall i :: 0 <= i < |fetch| ==> fetch[i].sourceKey != ""
    ensures var scan := Tick(db, fetch, uuids, now, counts);
      scan.Ok? ==> id in scan.value.0.tasks && scan.value.0.tasks[id] == db.tasks[id]
    decreases |fetch|
  {
    hide SyncSource, RowScanned;
    if fetch != [] && SyncSource(db, fetch[0], uuids[0], now, counts).Ok? {
      var (after, counted) := SyncSource(db, fetch[0], uuids[0], now, counts).value;
      RowIsScanned(db, fetch[0], uuids[0], now, counts);
      var written :| RowScanned(db, after, fetch[0], uuids[0].taskId, written);
      ApartRowIsLeft(db, after, fetch[0], uuids[0].taskId, written, id);
      ApartTaskIsLeft(after, fetch[1..], uuids[1..], now, counted, id);
    }
  }

  ghost predicate HasTask(before: Tasks, after: Tasks, row: DramaTask) {
    exists id :: Reflects(before, after, row, id)
  }

  ghost predicate LeftOrReflected(before: Tasks, after: Tasks, fetch: seq<DramaTask>, id: string) {
    || (id in before && id in after && after[id] == before[id])
    || exists i :: 0 <= i < |fetch| && Reflects(before, after, fetch[i], id)
  }

  /** Every fetched row has its task, and every other task is as it was. */
  ghost predicate ScanReflected(before: Tasks, after: Tasks, fetch: seq<DramaTask>) {
    && (forall i :: 0 <= i < |fetch| ==> HasTask(before, after, fetch[i]))
    && (forall id :: id in after ==> LeftOrReflected(before, after, fetch, id))
    && (forall id :: id in before ==> id in after)
  }

  /** The first row's task is left alone by the rest of the scan. */
  lemma FirstIsApart(db: Db, after: Db, fetch: seq<DramaTask>, uuids: seq<Uuids>, id: string)
    requires |uuids| == |fetch| > 0 && DistinctRows(fetch) && NoRowIds(db.tasks, fetch, uuids)
    requires RowScanned(db, after, fetch[0], uuids[0].taskId, id)
    ensures Apart(after.tasks[id], fetch[1..])
    ensures NoRowIds(after.tasks, fetch[1..], uuids[1..])
  {
    assert fetch == [fetch[0]] + fetch[1..] && uuids == [uuids[0]] + uuids[1..];
    assert DrawnIds(uuids) == {uuids[0].taskId} + DrawnIds(uuids[1..]);
    assert id in db.tasks || id == uuids[0].taskId;
    assert fetch[0] in fetch;
    forall i | 0 <= i < |fetch[1..]|
      ensures fetch[1..][i].id != id && !SameSlot(after.tasks[id], fetch[1..][i])
    {
      assert fetch[1..][i] == fetch[i + 1] && fetch[i + 1] in fetch;
    }
  }

  /** What the rest reflects it reflects from the start: it is another task than the first row's. */
  lemma RestIsReflected(before: Tasks, first: Tasks, after: Tasks, row: DramaTask, id: string, other: DramaTask,
      x: string)
    requires first == before[id := if id in first then first[id] else row]
    requires Reflects(before, first, row, id) && id in after && after[id] == first[id]
    requires Reflects(first, after, other, x) && other.sourceKey != row.sourceKey
    ensures Reflects(before, after, other, x)
  {
    hide Shows, KeepsOwn, TakesLinks, StartsFrom;
  }

  lemma RestIsLeftOrReflected(before: Tasks, first: Tasks, after: Tasks, fetch: seq<DramaTask>, id: string, x: string)
    requires fetch != [] && DistinctRows(fetch) && LeftOrReflected(first, after, fetch[1..], x)
    requires first == before[id := if id in first then first[id] else fetch[0]]
    requires Reflects(before, first, fetch[0], id) && id in after && after[id] == first[id]
    ensures LeftOrReflected(before, after, fetch, x)
  {
    hide Reflects;
    if x == id {
      FirstStays(before, first, after, fetch[0], id);
      assert Reflects(before, after, fetch[0], x);
    } else if !(x in first && x in after && after[x] == first[x]) {
      var i :| 0 <= i < |fetch[1..]| && Reflects(first, after, fetch[1..][i], x);
      assert fetch[1..][i] == fetch[i + 1];
      RestIsReflected(before, first, after, fetch[0], id, fetch[i + 1], x);
    }
  }

  lemma FirstStays(before: Tasks, first: Tasks, after: Tasks, row: DramaTask, id: string)
    requires Reflects(before, first, row, id) && id in after && id in first && after[id] == first[id]
    ensures Reflects(before, after, row, id)
  {
  }

  /** The first row's task joins what the rest of the scan reflects. */
  lemma FirstIsReflected(before: Tasks, first: Tasks, after: Tasks, fetch: seq<DramaTask>, id: string)
    requires fetch != [] && DistinctRows(fetch) && ScanReflected(first, after, fetch[1..])
    requires first == before[id := if id in first then first[id] else fetch[0]]
    requires Reflects(before, first, fetch[0], id) && id in after && after[id] == first[id]
    ensures ScanReflected(before, after, fetch)
  {
    hide Reflects, LeftOrReflected;
    FirstStays(before, first, after, fetch[0], id);
    forall i | 0 <= i < |fetch| ensures HasTask(before, after, fetch[i]) {
      if i > 0 {
        assert fetch[1..][i - 1] == fetch[i];
        assert HasTask(first, after, fetch[1..][i - 1]);
        var x :| Reflects(first, after, fetch[i], x);
        RestIsReflected(before, first, after, fetch[0], id, fetch[i], x);
      }
    }
    forall x | x in after ensures LeftOrReflected(before, after, fetch, x) {
      RestIsLeftOrReflected(before, first, after, fetch, id, x);
    }
    assert forall x :: x in before ==> x in first;
  }

  /**
   * After a scan of rows with distinct keys, no two of one name, time and platform: every row has a task, created
   * from it or synced with it exactly as the row says, and every other task is untouched.
   */
  lemma {:induction false} ScanReflectsEveryRow(db: Db, fetch: seq<DramaTask>, uuids: seq<Uuids>, now: Time,
                                                counts: Counts)
    requires Keyed(db) && |uuids| == |fetch| && DistinctRows(fetch) && NoRowIds(db.tasks, fetch, uuids)
    ensures var scan := Tick(db, fetch, uuids, now, counts);
      scan.Ok? ==> ScanReflected(db.tasks, scan.value.0.tasks, fetch)
    decreases |fetch|
  {
    hide SyncSource, Apart, NoRowIds;
    if fetch != [] && SyncSource(db, fetch[0], uuids[0], now, counts).Ok? {
      hide Reflects, GoesTo, ScanReflected;
      var (first, counted) := SyncSource(db, fetch[0], uuids[0], now, counts).value;
      RowIsScanned(db, fetch[0], uuids[0], now, counts);
      var id :| RowScanned(db, first, fetch[0], uuids[0].taskId, id);
      ReflectedIsThere(db.tasks, first.tasks, fetch[0], id);
      FirstIsApart(db, first, fetch, uuids, id);
      RestIsDistinct(fetch);
      ApartTaskIsLeft(first, fetch[1..], uuids[1..], now, counted, id);
      ScanReflectsEveryRow(first, fetch[1..], uuids[1..], now, counted);
      if Tick(first, fetch[1..], uuids[1..], now, counted).Ok? {
        FirstIsReflected(db.tasks, first.tasks, Tick(first, fetch[1..], uuids[1..], now, counted).value.0.tasks, fetch,
            id);
      }
    }
  }

  lemma ReflectedIsThere(before: Tasks, after: Tasks, row: DramaTask, id: string)
    requires Reflects(before, after, row, id)
    ensures id in after
  {
  }

  lemma RestIsDistinct(fetch: seq<DramaTask>)
    requires DistinctRows(fetch) && fetch != []
    ensures DistinctRows(fetch[1..]) && forall i :: 0 <= i < |fetch[1..]| ==> fetch[1..][i].sourceKey != ""
  {
  }

  // ---- the counts ----

  /** Each row is either a new task or an update, and either a new item or not. */
  lemma {:induction false} CountsAddUp(db: Db, fetch: seq<DramaTask>, uuids: seq<Uuids>, now: Time, counts: Counts)
    requires Keyed(db) && |uuids| == |fetch|
    ensures var scan := Tick(db, fetch, uuids, now, counts); scan.Ok? ==>
      var (after, counted) := scan.value;
      && counted.created - counts.created == |after.tasks| - |db.tasks|
      && counted.enqueued - counts.enqueued == |after.items| - |db.items|
      && (counted.created - counts.created) + (counted.updated - counts.updated) == |fetch|
      && (counted.enqueued - counts.enqueued) + (counted.skipped - counts.skipped) == |fetch|
    decreases |fetch|
  {
    hide SyncSource;
    if fetch != [] && SyncSource(db, fetch[0], uuids[0], now, counts).Ok? {
      var (after, counted) := SyncSource(db, fetch[0], uuids[0], now, counts).value;
      RowCounts(db, fetch[0], uuids[0], now, counts);
      SyncSourceIsKeyed(db, fetch[0], uuids[0], now, counts);
      CountsAddUp(after, fetch[1..], uuids[1..], now, counted);
    }
  }

  lemma RowCounts(db: Db, row: DramaTask, uuids: Uuids, now: Time, counts: Counts)
    requires Keyed(db) && SyncSource(db, row, uuids, now, counts).Ok?
    ensures var (after, counted) := SyncSource(db, row, uuids, now, counts).value;
      && |after.tasks| == |db.tasks| + (counted.created - counts.created)
      && |after.items| == |db.items| + (counted.enqueued - counts.enqueued)
      && (counted.created - counts.created) + (counted.updated - counts.updated) == 1
      && (counted.enqueued - counts.enqueued) + (counted.skipped - counts.skipped) == 1
  {
    hide Upsert, EnsureQueueItem, SyncSource;
    SyncSourceValue(db, row, uuids, now, counts);
    UpsertCounts(db, row, uuids);
    var (tasks, task, created) := Upsert(db.tasks, row, uuids).value;
    EnsuringKeepsTasks(db.(tasks := tasks), task, uuids.itemId, now);
    EnsuringCounts(db.(tasks := tasks), task, uuids.itemId, now);
  }

  lemma UpsertCounts(db: Db, row: DramaTask, uuids: Uuids)
    requires Keyed(db) && Upsert(db.tasks, row, uuids).Ok?
    ensures var (tasks, task, created) := Upsert(db.tasks, row, uuids).value;
      |tasks| == |db.tasks| + if created then 1 else 0
  {
    hide SameSlot, Matchable;
    var (tasks, task, created) := Upsert(db.tasks, row, uuids).value;
    assert created <==> task.id !in db.tasks;
    OneEntryMore(db.tasks, task.id, task);
  }

  lemma EnsuringCounts(db: Db, task: DramaTask, newId: string, now: Time)
    requires KeyedItems(db.items) && EnsureQueueItem(db, task, newId, now).Ok?
    ensures var (after, created) := EnsureQueueItem(db, task, newId, now).value;
      |after.items| == |db.items| + if created then 1 else 0
  {
    var (after, created) := EnsureQueueItem(db, task, newId, now).value;
    if created {
      OneEntryMore(db.items, newId, after.items[newId]);
    } else if ActiveRow(db.items, task.id).Some? {
      var active := ActiveRow(db.items, task.id).value;
      OneEntryMore(db.items, active.id, active.(availableAt := task.availableTime));
    }
  }

  lemma OneEntryMore<T>(m: map<string, T>, key: string, value: T)
    ensures |m[key := value]| == |m| + if key in m then 0 else 1
  {
    assert m[key := value].Keys == m.Keys + {key};
    assert |m.Keys| == |m| && |m[key := value].Keys| == |m[key := value]|;
  }
}
