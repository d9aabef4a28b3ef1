/** The scheduler's scan, as functions on database values: match, create or update a task, then admit it. */
module Scheduling {
  import opened Basics
  import opened QueueStates
  import opened Records
  import opened QueueTable
  import opened QueueOperations

  /** Outcome of a query that may return at most one row: several rows are an error. */
  datatype Lookup = Found(id: string) | Missing | Ambiguous

  ghost predicate Answers(ids: set<string>, answer: Lookup) {
    match answer
    case Missing => ids == {}
    case Found(id) => ids == {id}
    case Ambiguous => exists x, y :: x in ids && y in ids && x != y
  }

  function OneRow(ids: set<string>): (answer: Lookup)
    ensures Answers(ids, answer)
  {
    if ids == {} then Missing
    else if exists id :: id in ids && ids == {id} then
      var id :| id in ids && ids == {id};
      Found(id)
    else
      SeveralMembers(ids);
      Ambiguous
  }

  lemma SeveralMembers(ids: set<string>)
    requires ids != {} && !exists id :: id in ids && ids == {id}
    ensures exists x, y :: x in ids && y in ids && x != y
  {
    var x :| x in ids;
    assert ids != {x};
    var y :| y in ids && y != x;
  }

  function WithKey(tasks: Tasks, key: string): set<string> {
    set id | id in tasks && tasks[id].sourceKey == key
  }

  /** A finished task does not stand in for a source row whose key changed. */
  predicate Matchable(status: TaskStatus) {
    status != TaskStatus.Cancelled && status != TaskStatus.Completed && status != TaskStatus.DryRun
  }

  predicate SameSlot(x: DramaTask, y: DramaTask) {
    x.dramaName == y.dramaName && x.availableTime == y.availableTime && x.platform == y.platform
  }

  function InSlot(tasks: Tasks, source: DramaTask): set<string> {
    set id | id in tasks && SameSlot(tasks[id], source) && Matchable(tasks[id].status)
  }

  /** The task a source row belongs to: by source key, else by name, time and platform, else by row id. */
  function FindExisting(tasks: Tasks, source: DramaTask): Result<Option<DramaTask>> {
    var byKey := if source.sourceKey != "" then OneRow(WithKey(tasks, source.sourceKey)) else Missing;
    match byKey
    case Ambiguous => Err(Integrity)
    case Found(id) => Ok(Some(tasks[id]))
    case Missing =>
      match OneRow(InSlot(tasks, source))
      case Ambiguous => Err(Integrity)
      case Found(id) => Ok(Some(tasks[id].(sourceKey := source.sourceKey)))
      case Missing => Ok(if source.id in tasks then Some(tasks[source.id]) else None)
  }

  function Synced(existing: DramaTask, source: DramaTask): DramaTask {
    var moved := existing.(
      sheetRow := source.sheetRow,
      sourceKey := if source.sourceKey != "" then source.sourceKey else existing.sourceKey,
      dramaName := source.dramaName,
      platform := source.platform,
      availableTime := source.availableTime,
      sourceLinks := if existing.linkStatus != Validated then source.sourceLinks else existing.sourceLinks);
    if source.linkStatus == Validated && source.linkSet != map[]
    then moved.(linkSet := source.linkSet, linkStatus := Validated)
    else moved
  }

  function NewTask(source: DramaTask, uuid: string): DramaTask {
    DramaTask(
      if source.sourceKey != "" then uuid else source.id,
      source.sourceKey, source.sheetRow, source.dramaName, source.platform, source.availableTime, source.owner,
      Waiting, source.sourceLinks, source.linkSet, source.linkStatus,
      WaitingAvailableTime, LinksReady, "", map[], false)
  }

  function AddTask(tasks: Tasks, task: DramaTask): Result<Tasks> {
    if task.id in tasks then Err(Integrity) else Ok(tasks[task.id := task])
  }

  /** The identifiers one iteration may draw. */
  datatype Uuids = Uuids(taskId: string, itemId: string)

  datatype Counts = Counts(created: nat, updated: nat, enqueued: nat, skipped: nat)

  const NO_COUNTS := Counts(0, 0, 0, 0)

  /** Match or create the task of one source row. */
  function Upsert(tasks: Tasks, source: DramaTask, uuids: Uuids): Result<(Tasks, DramaTask, bool)> {
    match FindExisting(tasks, source)
    case Err(error) => Err(error)
    case Ok(Some(existing)) =>
      var task := Synced(existing, source);
      Ok((tasks[task.id := task], task, false))
    case Ok(None) =>
      var task := NewTask(source, uuids.taskId);
      match AddTask(tasks, task)
      case Err(error) => Err(error)
      case Ok(added) => Ok((added, task, true))
  }

  /** One iteration of the scan. */
  ghost function SyncSource(db: Db, source: DramaTask, uuids: Uuids, now: Time, counts: Counts): Result<(Db, Counts)>
    requires Keyed(db)
  {
    UpsertIsKeyed(db, source, uuids);
    match Upsert(db.tasks, source, uuids)
    case Err(error) => Err(error)
    case Ok((tasks, task, created)) =>
      match EnsureQueueItem(db.(tasks := tasks), task, uuids.itemId, now)
      case Err(error) => Err(error)
      case Ok((after, enqueued)) =>
        Ok((after, Counts(
          counts.created + (if created then 1 else 0),
          counts.updated + (if created then 0 else 1),
          counts.enqueued + (if enqueued then 1 else 0),
          counts.skipped + (if enqueued then 0 else 1))))
  }

  lemma UpsertIsKeyed(db: Db, source: DramaTask, uuids: Uuids)
    requires Keyed(db)
    ensures var r := Upsert(db.tasks, source, uuids);
      r.Ok? ==> Keyed(db.(tasks := r.value.0)) && r.value.1.id in r.value.0 && r.value.0[r.value.1.id] == r.value.1
  {
  }

  lemma EnsureQueueItemIsKeyed(db: Db, task: DramaTask, newId: string, now: Time)
    requires Keyed(db)
    ensures var r := EnsureQueueItem(db, task, newId, now); r.Ok? ==> Keyed(r.value.0)
  {
  }

  lemma SyncSourceIsKeyed(db: Db, source: DramaTask, uuids: Uuids, now: Time, counts: Counts)
    requires Keyed(db)
    ensures var r := SyncSource(db, source, uuids, now, counts); r.Ok? ==> Keyed(r.value.0)
  {
    UpsertIsKeyed(db, source, uuids);
    var upsert := Upsert(db.tasks, source, uuids);
    if upsert.Ok? {
      EnsureQueueItemIsKeyed(db.(tasks := upsert.value.0), upsert.value.1, uuids.itemId, now);
    }
  }

  /** The scan over a whole fetch; an error anywhere abandons it. */
  ghost function Tick(db: Db, fetch: seq<DramaTask>, uuids: seq<Uuids>, now: Time, counts: Counts): Result<(Db, Counts)>
    requires Keyed(db) && |uuids| == |fetch|
    decreases |fetch|
  {
    if fetch == [] then Ok((db, counts))
    else
      SyncSourceIsKeyed(db, fetch[0], uuids[0], now, counts);
      match SyncSource(db, fetch[0], uuids[0], now, counts)
      case Err(error) => Err(error)
      case Ok((after, counted)) => Tick(after, fetch[1..], uuids[1..], now, counted)
  }
}
