/** What scans keep and what repeating one does. */
module SchedulingProofs {
  import opened Basics
  import opened QueueStates
  import opened Records
  import opened QueueTable
  import opened QueueOperations
  import opened Scheduling
  import opened Sorting

  // ---- source keys stay unique ----

  ghost predicate KeysUnique(tasks: Tasks) {
    forall x, y :: x in tasks && y in tasks && x != y && tasks[x].sourceKey != ""
        ==> tasks[x].sourceKey != tasks[y].sourceKey
  }

  /** The upserted task ends without a key, with the key it had, or with a key nobody else has. */
  lemma UpsertedKeyIsFree(db: Db, source: DramaTask, uuids: Uuids)
    requires Keyed(db) && Upsert(db.tasks, source, uuids).Ok?
    ensures var (tasks, task, _) := Upsert(db.tasks, source, uuids).value;
      && tasks == db.tasks[task.id := task]
      && (|| task.sourceKey == ""
          || (task.id in db.tasks && task.sourceKey == db.tasks[task.id].sourceKey)
          || WithKey(db.tasks, task.sourceKey) == {})
  {
    hide InSlot, SameSlot, Matchable;
  }

  lemma OneTaskKeepsKeysUnique(tasks: Tasks, task: DramaTask)
    requires KeysUnique(tasks)
    requires task.sourceKey == "" || (task.id in tasks && task.sourceKey == tasks[task.id].sourceKey)
        || WithKey(tasks, task.sourceKey) == {}
    ensures KeysUnique(tasks[task.id := task])
  {
    assert forall id :: id in WithKey(tasks, task.sourceKey) <==> id in tasks && tasks[id].sourceKey == task.sourceKey;
  }

  lemma UpsertKeepsKeysUnique(db: Db, source: DramaTask, uuids: Uuids)
    requires Keyed(db) && KeysUnique(db.tasks)
    ensures var r := Upsert(db.tasks, source, uuids); r.Ok? ==> KeysUnique(r.value.0)
  {
    hide Upsert;
    if Upsert(db.tasks, source, uuids).Ok? {
      UpsertedKeyIsFree(db, source, uuids);
      OneTaskKeepsKeysUnique(db.tasks, Upsert(db.tasks, source, uuids).value.1);
    }
  }

  /** A source key names at most one task, whatever a scan meets: rows inserted, keys changed under a
      name-and-time match, rows without a key. */
  lemma {:induction false} ScanKeepsKeysUnique(db: Db, fetch: seq<DramaTask>, uuids: seq<Uuids>, now: Time,
      counts: Counts)
    requires Keyed(db) && |uuids| == |fetch| && KeysUnique(db.tasks)
    ensures var r := Tick(db, fetch, uuids, now, counts); r.Ok? ==> KeysUnique(r.value.0.tasks)
    decreases |fetch|
  {
    if fetch != [] {
      SyncSourceIsKeyed(db, fetch[0], uuids[0], now, counts);
      UpsertKeepsKeysUnique(db, fetch[0], uuids[0]);
      var r := SyncSource(db, fetch[0], uuids[0], now, counts);
      if r.Ok? {
        ScanKeepsKeysUnique(r.value.0, fetch[1..], uuids[1..], now, r.value.1);
      }
    }
  }

  // ---- repeating a scan ----

  /** The scheduler will not create an item for this task again. */
  predicate Covered(db: Db, id: string) {
    id in db.tasks && (db.tasks[id].status == TaskStatus.DryRun || RowsOf(db.items, id) != {})
  }

  /** A task carrying the key of a scanned row has that row's name, time and platform, and is covered. */
  ghost predicate Home(db: Db, scanned: set<DramaTask>) {
    forall id, p :: id in db.tasks && p in scanned && db.tasks[id].sourceKey == p.sourceKey ==>
      SameSlot(db.tasks[id], p) && Covered(db, id)
  }

  /** `id` answers for the scanned row `s`: it carries its key, or it took over a row of the same slot. */
  ghost predicate AnswersFor(tasks: Tasks, scanned: set<DramaTask>, s: DramaTask, id: string, p: DramaTask) {
    && id in tasks && p in scanned
    && tasks[id].sourceKey == p.sourceKey && SameSlot(p, s)
    && (p.sourceKey == s.sourceKey || Matchable(tasks[id].status))
  }

  ghost predicate Answered(tasks: Tasks, scanned: set<DramaTask>, s: DramaTask) {
    exists id, p :: AnswersFor(tasks, scanned, s, id, p)
  }

  ghost predicate Settled(tasks: Tasks, scanned: set<DramaTask>) {
    forall s {:trigger Answered(tasks, scanned, s)} :: s in scanned ==> Answered(tasks, scanned, s)
  }

  /** Distinct, non-empty keys: each fetched row is one business row. */
  ghost predicate DistinctKeys(fetch: set<DramaTask>) {
    && (forall s :: s in fetch ==> s.sourceKey != "")
    && (forall s, t :: s in fetch && t in fetch && s.sourceKey == t.sourceKey ==> s == t)
  }

  lemma CoverageGrows(db: Db, task: DramaTask, newId: string, now: Time)
    requires Keyed(db) && task.id in db.tasks && db.tasks[task.id] == task
    requires EnsureQueueItem(db, task, newId, now).Ok?
    ensures var after := EnsureQueueItem(db, task, newId, now).value.0;
      && after.tasks == db.tasks && Covered(after, task.id)
      && (forall id :: Covered(db, id) ==> Covered(after, id))
    ensures Covered(db, task.id) ==> !EnsureQueueItem(db, task, newId, now).value.1
  {
    var after := EnsureQueueItem(db, task, newId, now).value.0;
    forall id, row | row in RowsOf(db.items, id)
      ensures RowsOf(after.items, id) != {}
    {
      assert after.items[row.id] in RowsOf(after.items, id);
    }
    if task.status != TaskStatus.DryRun {
      if row :| row in RowsOf(db.items, task.id) {
        assert NewestRow(db.items, task.id).Some?;
      }
      if ActiveRow(db.items, task.id).Some? {
        assert ActiveRow(db.items, task.id).value in RowsOf(db.items, task.id);
      } else if NewestRow(db.items, task.id).Some? {
        assert NewestRow(db.items, task.id).value in RowsOf(db.items, task.id);
      } else {
        assert after.items[newId] in RowsOf(after.items, task.id);
      }
    }
  }

  /** One upsert of `source`, whose row id names no task: a new task, the holder of its key, or the one
      matchable task of its slot. */
  ghost predicate Upserted(before: Tasks, source: DramaTask, after: Tasks, task: DramaTask, created: bool) {
    && after == before[task.id := task]
    && task.sourceKey == source.sourceKey && SameSlot(task, source)
    && created == (task.id !in before)
    && if created then
         WithKey(before, source.sourceKey) == {} && InSlot(before, source) == {} && Matchable(task.status)
       else
         && task == Synced(before[task.id].(sourceKey := source.sourceKey), source)
         && task.status == before[task.id].status
         && (|| WithKey(before, source.sourceKey) == {task.id}
             || (WithKey(before, source.sourceKey) == {} && InSlot(before, source) == {task.id}))
  }

  lemma UpsertCases(db: Db, source: DramaTask, uuids: Uuids)
    requires Keyed(db) && source.sourceKey != "" && source.id !in db.tasks
    requires Upsert(db.tasks, source, uuids).Ok?
    ensures var (tasks, task, created) := Upsert(db.tasks, source, uuids).value;
      Upserted(db.tasks, source, tasks, task, created) && (created ==> task.id == uuids.taskId)
  {
  }

  /** One row's answer survives the upsert of another. */
  lemma AnswerSurvives(db: Db, scanned: set<DramaTask>, source: DramaTask, tasks: Tasks, task: DramaTask, created: bool,
      s: DramaTask)
    requires Keyed(db) && Home(db, scanned) && s in scanned && s != source
    requires Answered(db.tasks, scanned, s)
    requires DistinctKeys(scanned + {source})
    requires Upserted(db.tasks, source, tasks, task, created)
    ensures Answered(tasks, scanned + {source}, s)
  {
    hide Synced, Covered;
    var all := scanned + {source};
    var id, p :| AnswersFor(db.tasks, scanned, s, id, p);
    if id != task.id {
      assert AnswersFor(tasks, all, s, id, p);
    } else if WithKey(db.tasks, source.sourceKey) == {task.id} {
      assert id in WithKey(db.tasks, source.sourceKey);
      assert p == source;
      assert AnswersFor(tasks, all, s, id, source);
    } else {
      assert id in InSlot(db.tasks, source);
      assert AnswersFor(tasks, all, s, id, source);
    }
  }

  /** The rows of a scan so far keep their answers when one more row is upserted ... */
  lemma UpsertSettles(db: Db, scanned: set<DramaTask>, source: DramaTask, tasks: Tasks, task: DramaTask, created: bool)
    requires Keyed(db) && Home(db, scanned) && Settled(db.tasks, scanned)
    requires DistinctKeys(scanned + {source})
    requires Upserted(db.tasks, source, tasks, task, created)
    ensures Settled(tasks, scanned + {source})
  {
    hide Home, Answered, Upserted;
    NewAnswer(db.tasks, scanned, source, tasks, task, created);
    forall s | s in scanned + {source} ensures Answered(tasks, scanned + {source}, s) {
      if s != source {
        AnswerSurvives(db, scanned, source, tasks, task, created, s);
      }
    }
  }

  lemma NewAnswer(before: Tasks, scanned: set<DramaTask>, source: DramaTask, tasks: Tasks, task: DramaTask,
      created: bool)
    requires Upserted(before, source, tasks, task, created)
    ensures Answered(tasks, scanned + {source}, source)
  {
    assert AnswersFor(tasks, scanned + {source}, source, task.id, source);
  }

  /** ... and their homes, once the upserted task is covered. */
  lemma UpsertKeepsHome(before: Db, scanned: set<DramaTask>, source: DramaTask, after: Db, task: DramaTask,
      created: bool)
    requires Home(before, scanned)
    requires DistinctKeys(scanned + {source})
    requires Upserted(before.tasks, source, after.tasks, task, created)
    requires Covered(after, task.id)
    requires forall id :: id != task.id && Covered(before, id) ==> Covered(after, id)
    ensures Home(after, scanned + {source})
  {
    hide Synced, Covered;
    forall id, p | id in after.tasks && p in scanned + {source} && after.tasks[id].sourceKey == p.sourceKey
      ensures SameSlot(after.tasks[id], p) && Covered(after, id)
    {
      if id == task.id {
        assert p == source;
      } else {
        assert after.tasks[id] == before.tasks[id];
        assert id in WithKey(before.tasks, source.sourceKey) <==> after.tasks[id].sourceKey == source.sourceKey;
      }
    }
  }

  lemma SyncSettles(db: Db, scanned: set<DramaTask>, source: DramaTask, uuids: Uuids, now: Time, counts: Counts)
    requires Keyed(db) && Home(db, scanned) && Settled(db.tasks, scanned)
    requires DistinctKeys(scanned + {source}) && source.id !in db.tasks
    requires SyncSource(db, source, uuids, now, counts).Ok?
    ensures var after := SyncSource(db, source, uuids, now, counts).value.0;
      && Keyed(after) && Home(after, scanned + {source}) && Settled(after.tasks, scanned + {source})
      && after.tasks.Keys <= db.tasks.Keys + {uuids.taskId}
  {
    hide Home, Settled, Upserted, Upsert, EnsureQueueItem, Covered;
    UpsertIsKeyed(db, source, uuids);
    SyncSourceIsKeyed(db, source, uuids, now, counts);
    UpsertCases(db, source, uuids);
    var (tasks, task, created) := Upsert(db.tasks, source, uuids).value;
    var middle := db.(tasks := tasks);
    CoverageGrows(middle, task, uuids.itemId, now);
    UpsertSettles(db, scanned, source, tasks, task, created);
    var after := SyncSource(db, source, uuids, now, counts).value.0;
    OtherTasksStayCovered(db, source, tasks, task, created);
    UpsertKeepsHome(db, scanned, source, after, task, created);
  }

  lemma OtherTasksStayCovered(db: Db, source: DramaTask, tasks: Tasks, task: DramaTask, created: bool)
    requires Upserted(db.tasks, source, tasks, task, created)
    ensures forall id :: id != task.id && Covered(db, id) ==> Covered(db.(tasks := tasks), id)
    ensures tasks.Keys == db.tasks.Keys + {task.id} && (created <==> task.id !in db.tasks)
  {
  }

  /** No task id is the row id of a fetched row, now or among the ids the scan may draw. */
  ghost predicate NoRowIds(tasks: Tasks, fetch: seq<DramaTask>, uuids: seq<Uuids>) {
    forall s :: s in fetch ==> s.id !in tasks.Keys + DrawnIds(uuids)
  }

  function DrawnIds(uuids: seq<Uuids>): set<string> {
    set u | u in uuids :: u.taskId
  }

  lemma FewerKeys(some: set<DramaTask>, all: set<DramaTask>)
    requires DistinctKeys(all) && some <= all
    ensures DistinctKeys(some)
  {
  }

  lemma {:induction false} ScanSettles(db: Db, scanned: set<DramaTask>, fetch: seq<DramaTask>, uuids: seq<Uuids>,
      now: Time, counts: Counts)
    requires Keyed(db) && |uuids| == |fetch| && NoRowIds(db.tasks, fetch, uuids)
    requires Home(db, scanned) && Settled(db.tasks, scanned) && DistinctKeys(scanned + Members(fetch))
    ensures var scan := Tick(db, fetch, uuids, now, counts); scan.Ok? ==>
      var after := scan.value.0;
      && Keyed(after) && Home(after, scanned + Members(fetch)) && Settled(after.tasks, scanned + Members(fetch))
      && after.tasks.Keys <= db.tasks.Keys + DrawnIds(uuids)
    decreases |fetch|
  {
    hide Home, Settled, SyncSource, DistinctKeys;
    if fetch == [] {
      assert scanned + Members(fetch) == scanned;
    } else {
      var source, rest := fetch[0], fetch[1..];
      assert fetch == [source] + rest && uuids == [uuids[0]] + uuids[1..];
      assert scanned + Members(fetch) == (scanned + {source}) + Members(rest);
      assert DrawnIds(uuids) == {uuids[0].taskId} + DrawnIds(uuids[1..]);
      FewerKeys(scanned + {source}, scanned + Members(fetch));
      if SyncSource(db, source, uuids[0], now, counts).Ok? {
        SyncSettles(db, scanned, source, uuids[0], now, counts);
        var (after, counted) := SyncSource(db, source, uuids[0], now, counts).value;
        ScanSettles(after, scanned + {source}, rest, uuids[1..], now, counted);
      }
    }
  }

  /** For a row already scanned, a task carries its key or stands in its slot, and every such task is covered. */
  lemma ScannedRowHasTask(db: Db, scanned: set<DramaTask>, source: DramaTask)
    requires Home(db, scanned) && Settled(db.tasks, scanned) && source in scanned
    ensures forall id :: id in WithKey(db.tasks, source.sourceKey) ==> Covered(db, id)
    ensures WithKey(db.tasks, source.sourceKey) != {} || exists id :: id in InSlot(db.tasks, source) && Covered(db, id)
  {
    hide Covered, Matchable;
    assert Answered(db.tasks, scanned, source);
    var id, p :| AnswersFor(db.tasks, scanned, source, id, p);
    assert SameSlot(db.tasks[id], p) && Covered(db, id);
    if p.sourceKey == source.sourceKey {
      assert id in WithKey(db.tasks, source.sourceKey);
    } else {
      assert id in InSlot(db.tasks, source);
    }
  }

  lemma RescannedRowIsCovered(db: Db, scanned: set<DramaTask>, source: DramaTask, tasks: Tasks, task: DramaTask,
      created: bool)
    requires Home(db, scanned) && Settled(db.tasks, scanned) && source in scanned
    requires Upserted(db.tasks, source, tasks, task, created)
    ensures !created && Covered(db.(tasks := tasks), task.id)
  {
    hide Synced, Covered, Home, Settled, WithKey, InSlot;
    ScannedRowHasTask(db, scanned, source);
    assert !created;
    CoverageIgnoresOtherFields(db, source, tasks, task, created);
  }

  lemma CoverageIgnoresOtherFields(db: Db, source: DramaTask, tasks: Tasks, task: DramaTask, created: bool)
    requires Upserted(db.tasks, source, tasks, task, created) && !created
    ensures Covered(db, task.id) ==> Covered(db.(tasks := tasks), task.id)
  {
  }

  lemma SyncSourceValue(db: Db, source: DramaTask, uuids: Uuids, now: Time, counts: Counts)
    requires Keyed(db) && SyncSource(db, source, uuids, now, counts).Ok?
    ensures var upsert := Upsert(db.tasks, source, uuids);
      && upsert.Ok? && Keyed(db.(tasks := upsert.value.0))
      && var (tasks, task, created) := upsert.value;
         var ensured := EnsureQueueItem(db.(tasks := tasks), task, uuids.itemId, now);
         && ensured.Ok?
         && SyncSource(db, source, uuids, now, counts).value == (ensured.value.0, Counts(
              counts.created + (if created then 1 else 0), counts.updated + (if created then 0 else 1),
              counts.enqueued + (if ensured.value.1 then 1 else 0),
                  counts.skipped + (if ensured.value.1 then 0 else 1)))
  {
    hide Upsert, EnsureQueueItem;
    UpsertIsKeyed(db, source, uuids);
  }

  lemma RescanStep(db: Db, scanned: set<DramaTask>, source: DramaTask, uuids: Uuids, now: Time, counts: Counts)
    requires Keyed(db) && Home(db, scanned) && Settled(db.tasks, scanned)
    requires DistinctKeys(scanned) && source in scanned && source.id !in db.tasks
    requires SyncSource(db, source, uuids, now, counts).Ok?
    ensures var (after, counted) := SyncSource(db, source, uuids, now, counts).value;
      && Keyed(after) && Home(after, scanned) && Settled(after.tasks, scanned)
      && after.tasks.Keys == db.tasks.Keys
      && counted == Counts(counts.created, counts.updated + 1, counts.enqueued, counts.skipped + 1)
  {
    hide Home, Settled, Upserted, Upsert, EnsureQueueItem, Covered, SyncSource;
    SyncSourceValue(db, source, uuids, now, counts);
    UpsertIsKeyed(db, source, uuids);
    UpsertCases(db, source, uuids);
    var (tasks, task, created) := Upsert(db.tasks, source, uuids).value;
    RescannedRowIsCovered(db, scanned, source, tasks, task, created);
    OtherTasksStayCovered(db, source, tasks, task, created);
    CoverageGrows(db.(tasks := tasks), task, uuids.itemId, now);
    assert scanned + {source} == scanned;
    SyncSettles(db, scanned, source, uuids, now, counts);
  }

  lemma {:induction false} Rescan(db: Db, scanned: set<DramaTask>, fetch: seq<DramaTask>, uuids: seq<Uuids>, now: Time,
      counts: Counts)
    requires Keyed(db) && |uuids| == |fetch|
    requires forall s :: s in fetch ==> s in scanned && s.id !in db.tasks
    requires Home(db, scanned) && Settled(db.tasks, scanned) && DistinctKeys(scanned)
    requires Tick(db, fetch, uuids, now, counts).Ok?
    ensures var (after, counted) := Tick(db, fetch, uuids, now, counts).value;
      && after.tasks.Keys == db.tasks.Keys
      && counted == Counts(counts.created, counts.updated + |fetch|, counts.enqueued, counts.skipped + |fetch|)
    decreases |fetch|
  {
    hide Home, Settled, DistinctKeys, SyncSource;
    if fetch != [] {
      assert fetch == [fetch[0]] + fetch[1..];
      RescanStep(db, scanned, fetch[0], uuids[0], now, counts);
      var (after, counted) := SyncSource(db, fetch[0], uuids[0], now, counts).value;
      Rescan(after, scanned, fetch[1..], uuids[1..], now, counted);
    }
  }

  lemma NothingScanned(db: Db)
    ensures Home(db, {}) && Settled(db.tasks, {})
  {
  }

  /** Scanning the same fetch again creates no task and queues nothing, however the first scan matched,
      moved or re-keyed tasks, provided its queries stay unambiguous. */
  lemma ScanIsIdempotent(db: Db, fetch: seq<DramaTask>, first: seq<Uuids>, second: seq<Uuids>, now: Time, later: Time)
    requires Keyed(db) && |first| == |second| == |fetch|
    requires DistinctKeys(Members(fetch)) && NoRowIds(db.tasks, fetch, first)
    requires Tick(db, fetch, first, now, NO_COUNTS).Ok?
    ensures var once := Tick(db, fetch, first, now, NO_COUNTS).value.0;
      && Keyed(once)
      && var again := Tick(once, fetch, second, later, NO_COUNTS);
         again.Ok? ==> again.value.0.tasks.Keys == once.tasks.Keys && again.value.1 == Counts(0, |fetch|, 0, |fetch|)
  {
    hide Tick, Home, Settled, DistinctKeys;
    assert {} + Members(fetch) == Members(fetch);
    NothingScanned(db);
    ScanSettles(db, {}, fetch, first, now, NO_COUNTS);
    var once := Tick(db, fetch, first, now, NO_COUNTS).value.0;
    if Tick(once, fetch, second, later, NO_COUNTS).Ok? {
      Rescan(once, Members(fetch), fetch, second, later, NO_COUNTS);
    }
  }

  // ---- a fetch without two rows in one slot ----

  /** The queue already holds what the scheduler wants for the task. */
  ghost predicate Quiet(items: Items, task: DramaTask)
    requires KeyedItems(items)
  {
    || task.status == TaskStatus.DryRun
    || match ActiveRow(items, task.id)
       case Some(active) => active.state == QueueState.WaitingTime ==> active.availableAt == task.availableTime
       case None => NewestRow(items, task.id).Some?
  }

  /** Scanning `source` would change nothing: `id` alone carries its key, and row, task and queue agree. */
  ghost predicate Fixed(db: Db, source: DramaTask, id: string)
    requires Keyed(db)
  {
    && WithKey(db.tasks, source.sourceKey) == {id}
    && Synced(db.tasks[id], source) == db.tasks[id] && SameSlot(db.tasks[id], source)
    && Quiet(db.items, db.tasks[id])
  }

  lemma SyncingTwice(task: DramaTask, source: DramaTask)
    ensures Synced(Synced(task, source), source) == Synced(task, source)
  {
  }

  /** Changing the release time of the active row leaves it the active row. */
  lemma ActiveRowStays(items: Items, taskId: string, availableAt: Time)
    requires KeyedItems(items) && ActiveRow(items, taskId).Some?
    ensures var active := ActiveRow(items, taskId).value;
      var moved := active.(availableAt := availableAt);
      ActiveRow(items[active.id := moved], taskId) == Some(moved)
  {
    var active := ActiveRow(items, taskId).value;
    var moved := active.(availableAt := availableAt);
    var after := items[active.id := moved];
    var rows := UnfinishedRows(after, taskId);
    assert after[active.id] in rows;
    forall y | y in rows && y != moved ensures Newer(moved, y) {
      assert y in UnfinishedRows(items, taskId) && y != active;
    }
    SelectionIsUnique(after, rows, Some(moved), ActiveRow(after, taskId));
  }

  lemma OnlyRowIsActive(items: Items, row: QueueItem)
    requires KeyedItems(items) && row.id in items && items[row.id] == row && Unfinished(row.state)
    requires forall id :: id in items && items[id].taskId == row.taskId ==> id == row.id
    ensures ActiveRow(items, row.taskId) == Some(row)
  {
    var rows := UnfinishedRows(items, row.taskId);
    assert items[row.id] in rows;
    SelectionIsUnique(items, rows, Some(row), ActiveRow(items, row.taskId));
  }

  lemma EnsuredIsQuiet(db: Db, task: DramaTask, newId: string, now: Time)
    requires Keyed(db) && EnsureQueueItem(db, task, newId, now).Ok?
    ensures var after := EnsureQueueItem(db, task, newId, now).value.0;
      Keyed(after) && after.tasks == db.tasks && Quiet(after.items, task)
  {
    EnsureQueueItemIsKeyed(db, task, newId, now);
    var after := EnsureQueueItem(db, task, newId, now).value.0;
    if task.status != TaskStatus.DryRun && after != db {
      if ActiveRow(db.items, task.id).Some? {
        ActiveRowStays(db.items, task.id, task.availableTime);
      } else {
        OnlyRowIsActive(after.items, after.items[newId]);
      }
    }
  }

  /** After a row is scanned, scanning it again would change nothing. */
  lemma SyncFixes(db: Db, source: DramaTask, uuids: Uuids, now: Time, counts: Counts)
    requires Keyed(db) && source.sourceKey != "" && source.id !in db.tasks
    requires SyncSource(db, source, uuids, now, counts).Ok?
    ensures var after := SyncSource(db, source, uuids, now, counts).value.0;
      Keyed(after) && exists id :: Fixed(after, source, id)
  {
    hide Upsert, EnsureQueueItem, SyncSource, Synced, NewTask, Quiet;
    SyncSourceValue(db, source, uuids, now, counts);
    UpsertCases(db, source, uuids);
    var (tasks, task, created) := Upsert(db.tasks, source, uuids).value;
    EnsuredIsQuiet(db.(tasks := tasks), task, uuids.itemId, now);
    UpsertedTaskIsSynced(db, source, uuids);
    var after := SyncSource(db, source, uuids, now, counts).value.0;
    assert forall id :: id in WithKey(db.tasks, source.sourceKey) <==>
      id in db.tasks && db.tasks[id].sourceKey == source.sourceKey;
    assert WithKey(after.tasks, source.sourceKey) == {task.id};
    assert Fixed(after, source, task.id);
  }

  lemma UpsertedTaskIsSynced(db: Db, source: DramaTask, uuids: Uuids)
    requires Keyed(db) && source.sourceKey != "" && source.id !in db.tasks && Upsert(db.tasks, source, uuids).Ok?
    ensures var task := Upsert(db.tasks, source, uuids).value.1; Synced(task, source) == task
  {
  }

  /** Scanning a row of another key and slot leaves a fixed row fixed. */
  lemma SyncKeepsFixed(db: Db, source: DramaTask, uuids: Uuids, now: Time, counts: Counts, other: DramaTask, id: string)
    requires Keyed(db) && source.sourceKey != "" && source.id !in db.tasks
    requires SyncSource(db, source, uuids, now, counts).Ok?
    requires Fixed(db, other, id) && other.sourceKey != source.sourceKey && !SameSlot(other, source)
    ensures var after := SyncSource(db, source, uuids, now, counts).value.0;
      Keyed(after) && Fixed(after, other, id)
  {
    hide Upsert, EnsureQueueItem, SyncSource, Synced, Quiet;
    SyncSourceValue(db, source, uuids, now, counts);
    UpsertCases(db, source, uuids);
    var (tasks, task, created) := Upsert(db.tasks, source, uuids).value;
    var middle := db.(tasks := tasks);
    var after := SyncSource(db, source, uuids, now, counts).value.0;
    assert id in WithKey(db.tasks, other.sourceKey);
    assert task.id != id by {
      assert task.id in WithKey(db.tasks, source.sourceKey) || task.id in InSlot(db.tasks, source) || created;
    }
    assert forall x :: x in WithKey(db.tasks, other.sourceKey) <==>
      x in db.tasks && db.tasks[x].sourceKey == other.sourceKey;
    assert WithKey(tasks, other.sourceKey) == {id};
    EnsuringAnotherKeepsQuiet(middle, task, uuids.itemId, now, db.tasks[id]);
  }

  lemma EnsuringAnotherKeepsQuiet(db: Db, task: DramaTask, newId: string, now: Time, other: DramaTask)
    requires Keyed(db) && EnsureQueueItem(db, task, newId, now).Ok? && other.id != task.id
    requires Quiet(db.items, other)
    ensures var after := EnsureQueueItem(db, task, newId, now).value.0;
      Keyed(after) && after.tasks == db.tasks && Quiet(after.items, other)
  {
    hide EnsureQueueItem, KeyedItems;
    EnsureQueueItemIsKeyed(db, task, newId, now);
    EnsuringWritesOwnRows(db, task, newId, now, other.id);
    SameRowsSameChoice(db.items, EnsureQueueItem(db, task, newId, now).value.0.items, other.id);
  }

  /** The rows of other tasks stay. */
  lemma EnsuringWritesOwnRows(db: Db, task: DramaTask, newId: string, now: Time, taskId: string)
    requires Keyed(db) && EnsureQueueItem(db, task, newId, now).Ok? && taskId != task.id
    ensures var after := EnsureQueueItem(db, task, newId, now).value.0;
      && after.tasks == db.tasks
      && (forall id :: id in db.items && db.items[id].taskId == taskId ==>
        id in after.items && after.items[id] == db.items[id])
      && (forall id :: id in after.items && after.items[id].taskId == taskId ==>
        id in db.items && after.items[id] == db.items[id])
  {
  }

  lemma SameRowsSameChoice(x: Items, y: Items, taskId: string)
    requires KeyedItems(x) && KeyedItems(y)
    requires forall id :: id in x && x[id].taskId == taskId ==> id in y && y[id] == x[id]
    requires forall id :: id in y && y[id].taskId == taskId ==> id in x && y[id] == x[id]
    ensures ActiveRow(x, taskId) == ActiveRow(y, taskId)
    ensures NewestRow(x, taskId) == NewestRow(y, taskId)
  {
    assert UnfinishedRows(x, taskId) == UnfinishedRows(y, taskId);
    assert RowsOf(x, taskId) == RowsOf(y, taskId);
    SelectionIsUnique(x, UnfinishedRows(x, taskId), ActiveRow(x, taskId), ActiveRow(y, taskId));
    SelectionIsUnique(x, RowsOf(x, taskId), NewestRow(x, taskId), NewestRow(y, taskId));
  }

  /** Scanning a fixed row changes nothing, and cannot fail. */
  lemma FixedRowIsSkipped(db: Db, source: DramaTask, id: string, uuids: Uuids, now: Time, counts: Counts)
    requires Keyed(db) && source.sourceKey != "" && Fixed(db, source, id)
    ensures SyncSource(db, source, uuids, now, counts)
         == Ok((db, Counts(counts.created, counts.updated + 1, counts.enqueued, counts.skipped + 1)))
  {
    hide Synced, SameSlot;
    assert id in WithKey(db.tasks, source.sourceKey);
    assert OneRow(WithKey(db.tasks, source.sourceKey)) == Found(id);
    assert db.tasks[id := db.tasks[id]] == db.tasks;
  }

  ghost predicate AllFixed(db: Db, fetch: seq<DramaTask>)
    requires Keyed(db)
  {
    forall s :: s in fetch ==> exists id :: Fixed(db, s, id)
  }

  /** No two fetched rows share a key, or a name, time and platform. */
  ghost predicate DistinctRows(fetch: seq<DramaTask>) {
    && (forall i :: 0 <= i < |fetch| ==> fetch[i].sourceKey != "")
    && (forall i, j :: 0 <= i < j < |fetch| ==>
      fetch[i].sourceKey != fetch[j].sourceKey && !SameSlot(fetch[i], fetch[j]))
  }

  lemma {:induction false} ScanFixes(db: Db, before: seq<DramaTask>, fetch: seq<DramaTask>, uuids: seq<Uuids>,
      now: Time, counts: Counts)
    requires Keyed(db) && |uuids| == |fetch| && NoRowIds(db.tasks, fetch, uuids)
    requires DistinctRows(before + fetch) && AllFixed(db, before)
    ensures var scan := Tick(db, fetch, uuids, now, counts);
      scan.Ok? ==> Keyed(scan.value.0) && AllFixed(scan.value.0, before + fetch)
    decreases |fetch|
  {
    hide Fixed, SyncSource;
    if fetch == [] {
      assert before + fetch == before;
    } else if SyncSource(db, fetch[0], uuids[0], now, counts).Ok? {
      var source, rest := fetch[0], fetch[1..];
      assert fetch == [source] + rest && uuids == [uuids[0]] + uuids[1..];
      assert before + fetch == (before + [source]) + rest;
      assert DrawnIds(uuids) == {uuids[0].taskId} + DrawnIds(uuids[1..]);
      assert (before + fetch)[|before|] == source;
      SyncFixes(db, source, uuids[0], now, counts);
      SyncDraws(db, source, uuids[0], now, counts);
      var (after, counted) := SyncSource(db, source, uuids[0], now, counts).value;
      forall s | s in before + [source] ensures exists id :: Fixed(after, s, id) {
        if s != source {
          var i :| 0 <= i < |before| && before[i] == s;
          assert (before + fetch)[i] == s && (before + fetch)[|before|] == source;
          var id :| Fixed(db, s, id);
          SyncKeepsFixed(db, source, uuids[0], now, counts, s, id);
        }
      }
      ScanFixes(after, before + [source], rest, uuids[1..], now, counted);
    }
  }

  lemma SyncDraws(db: Db, source: DramaTask, uuids: Uuids, now: Time, counts: Counts)
    requires Keyed(db) && source.sourceKey != "" && source.id !in db.tasks
    requires SyncSource(db, source, uuids, now, counts).Ok?
    ensures SyncSource(db, source, uuids, now, counts).value.0.tasks.Keys <= db.tasks.Keys + {uuids.taskId}
  {
    hide Upsert, EnsureQueueItem, SyncSource, Synced;
    SyncSourceValue(db, source, uuids, now, counts);
    UpsertCases(db, source, uuids);
    var (tasks, task, created) := Upsert(db.tasks, source, uuids).value;
    EnsuredIsQuiet(db.(tasks := tasks), task, uuids.itemId, now);
  }

  lemma {:induction false} FixedScanIsSkipped(db: Db, fetch: seq<DramaTask>, uuids: seq<Uuids>, now: Time,
      counts: Counts)
    requires Keyed(db) && |uuids| == |fetch| && AllFixed(db, fetch)
    requires forall s :: s in fetch ==> s.sourceKey != ""
    ensures Tick(db, fetch, uuids, now, counts)
         == Ok((db, Counts(counts.created, counts.updated + |fetch|, counts.enqueued, counts.skipped + |fetch|)))
    decreases |fetch|
  {
    hide Fixed, SyncSource;
    if fetch != [] {
      assert fetch[0] in fetch && forall s :: s in fetch[1..] ==> s in fetch;
      var id :| Fixed(db, fetch[0], id);
      FixedRowIsSkipped(db, fetch[0], id, uuids[0], now, counts);
      FixedScanIsSkipped(db, fetch[1..], uuids[1..], now,
          Counts(counts.created, counts.updated + 1, counts.enqueued, counts.skipped + 1));
    }
  }

  /** When no two fetched rows share a slot either, the second scan cannot fail and changes nothing at all. */
  lemma ScanIsAFixpoint(db: Db, fetch: seq<DramaTask>, first: seq<Uuids>, second: seq<Uuids>, now: Time, later: Time)
    requires Keyed(db) && |first| == |second| == |fetch|
    requires DistinctRows(fetch) && NoRowIds(db.tasks, fetch, first)
    requires Tick(db, fetch, first, now, NO_COUNTS).Ok?
    ensures var once := Tick(db, fetch, first, now, NO_COUNTS).value.0;
      Keyed(once) && Tick(once, fetch, second, later, NO_COUNTS) == Ok((once, Counts(0, |fetch|, 0, |fetch|)))
  {
    hide Tick;
    assert [] + fetch == fetch;
    ScanFixes(db, [], fetch, first, now, NO_COUNTS);
    FixedScanIsSkipped(Tick(db, fetch, first, now, NO_COUNTS).value.0, fetch, second, later, NO_COUNTS);
  }
}
