/**
 * The queue operations as functions on database values. Each is one atomic service call: an error
 * result means the transaction is rolled back, so the database keeps its value.
 */
module QueueOperations {
  import opened Basics
  import opened QueueStates
  import opened Records
  import opened QueueTable

  // ---- statements of the queue repository ----

  predicate ReadyToAdmit(item: QueueItem, now: Time) {
    item.state == QueueState.WaitingTime && item.availableAt <= now
  }

  function Admit(items: Items, now: Time): Items {
    map id | id in items :: if ReadyToAdmit(items[id], now) then items[id].(state := Queued) else items[id]
  }

  function ClaimedBy(row: QueueItem, worker: string, leaseSeconds: Time, now: Time): QueueItem {
    row.(state := QueueState.Claimed, claimedBy := Some(worker), leaseUntil := Some(now + leaseSeconds))
  }

  function Unclaimed(row: QueueItem, state: QueueState): QueueItem {
    row.(state := state, claimedBy := None, leaseUntil := None)
  }

  ghost function Claim(items: Items, worker: string, leaseSeconds: Time, now: Time): Items
    requires KeyedItems(items)
  {
    match NextClaim(items)
    case None => items
    case Some(row) => items[row.id := ClaimedBy(row, worker, leaseSeconds, now)]
  }

  /** The lease has run out; a missing lease compares as SQL NULL. */
  predicate Expired(item: QueueItem, now: Time) {
    InFlight(item.state) && item.leaseUntil.Some? && item.leaseUntil.value < now
  }

  function ExpiredRows(items: Items, now: Time): set<string> {
    set id | id in items && Expired(items[id], now)
  }

  predicate HeldBy(item: QueueItem, worker: string) {
    InFlight(item.state) && item.claimedBy == Some(worker)
  }

  function Release(items: Items, id: string, worker: string): Items {
    if id in items && HeldBy(items[id], worker) then items[id := Unclaimed(items[id], Queued)] else items
  }

  function Recovered(item: QueueItem, maxAttempts: int): QueueItem {
    Unclaimed(item, if item.attemptCount + 1 <= maxAttempts then Queued else QueueState.ManualReview)
    .(attemptCount := item.attemptCount + 1)
  }

  function Recover(items: Items, now: Time, maxAttempts: int): Items {
    map id | id in items :: if Expired(items[id], now) then Recovered(items[id], maxAttempts) else items[id]
  }

  /** The expired rows that still have an attempt left. */
  function Requeued(items: Items, now: Time, maxAttempts: int): set<string> {
    set id | id in items && Expired(items[id], now) && items[id].attemptCount + 1 <= maxAttempts
  }

  /** Recovery takes exactly the expired rows, splits them by the attempts left, counts one attempt on each,
      frees them all, and touches no other row; nothing is expired afterwards. */
  lemma RecoverySplitsTheExpired(items: Items, now: Time, maxAttempts: int)
    ensures var after, expired := Recover(items, now, maxAttempts), ExpiredRows(items, now);
      && Requeued(items, now, maxAttempts) <= expired
      && after.Keys == items.Keys
      && (forall id :: id in items && id !in expired ==> after[id] == items[id])
      && (forall id :: id in expired ==>
           && after[id].attemptCount == items[id].attemptCount + 1
           && after[id].claimedBy == None && after[id].leaseUntil == None
           && if id in Requeued(items, now, maxAttempts)
              then after[id].state == Queued && after[id].attemptCount <= maxAttempts
              else after[id].state == QueueState.ManualReview && after[id].attemptCount > maxAttempts)
      && ExpiredRows(after, now) == {}
  {
  }

  function Renew(items: Items, id: string, worker: string, leaseSeconds: Time, now: Time): Items {
    if id in items && HeldBy(items[id], worker)
    then items[id := items[id].(leaseUntil := Some(now + leaseSeconds))]
    else items
  }

  // ---- controls ----

  function SetStatus(tasks: Tasks, taskId: string, status: TaskStatus): Tasks {
    if taskId in tasks then tasks[taskId := tasks[taskId].(status := status)] else tasks
  }

  function Store(db: Db, item: QueueItem, status: TaskStatus): Db {
    db.(items := db.items[item.id := item], tasks := SetStatus(db.tasks, item.taskId, status))
  }

  /** pause_task and cancel_task: a worker may stop only what it holds; unheld items anyone may stop. */
  function Stop(db: Db, id: string, worker: string, target: QueueState, status: TaskStatus): Result<Db> {
    if id !in db.items then Err(NotFound)
    else
      var item := db.items[id];
      if !Unfinished(item.state) then Err(Conflict)
      else if InFlight(item.state) && item.claimedBy != Some(worker) then Err(Conflict)
      else if !CanTransition(item.state, target) then Err(Conflict)
      else Ok(Store(db, Unclaimed(item, target), status))
  }

  function Pause(db: Db, id: string, worker: string): Result<Db> {
    Stop(db, id, worker, Paused, TaskStatus.Running)
  }

  function Cancel(db: Db, id: string, worker: string): Result<Db> {
    Stop(db, id, worker, QueueState.Cancelled, TaskStatus.Cancelled)
  }

  function Resume(db: Db, id: string): Result<Db> {
    if id !in db.items then Err(NotFound)
    else if db.items[id].state != Paused then Err(Conflict)
    else Ok(Store(db, db.items[id].(state := Queued), TaskStatus.Ready))
  }

  const RESULT_UNCERTAIN := "RESULT_UNCERTAIN"

  predicate NeedsRetry(state: QueueState) {
    state == QueueState.ManualReview || state == QueueState.Failed || state == RetryWait
  }

  function Retry(db: Db, id: string): Result<Db> {
    if id !in db.items then Err(NotFound)
    else
      var item := db.items[id];
      if !NeedsRetry(item.state) then Err(Conflict)
      else if item.failureCode == Some(RESULT_UNCERTAIN) && !item.retrySafe then Err(Conflict)
      else Ok(Store(db, Unclaimed(item, Queued).(attemptCount := 0, failureCode := None, retrySafe := false),
          TaskStatus.Ready))
  }

  function MarkManualReview(db: Db, id: string, worker: string): Result<Db> {
    if id !in db.items then Err(NotFound)
    else if !HeldBy(db.items[id], worker) then Err(Conflict)
    else Ok(Store(db, Unclaimed(db.items[id], QueueState.ManualReview), TaskStatus.ManualReview))
  }

  // ---- execution ----

  datatype OutcomeStatus =
    | OutCompleted | OutManualReview | OutFailed | OutDryRun | OutLinkExtracted | OutLinkReady | OutUnknown

  datatype Level = Info | Warning | ErrorLevel

  datatype ExecutionOutcome = ExecutionOutcome(
    status: OutcomeStatus,
    externalTaskId: Option<string>,
    events: seq<Level>,
    failureCode: Option<string>,
    retrySafe: bool)

  /** What calling the executor gives: an outcome, or an exception. */
  datatype Execution = Returned(outcome: ExecutionOutcome) | Raised

  function OutcomeOf(e: Execution): ExecutionOutcome {
    match e
    case Returned(outcome) => outcome
    case Raised => ExecutionOutcome(OutManualReview, None, [ErrorLevel], None, false)
  }

  predicate Succeeded(status: OutcomeStatus) {
    status == OutCompleted || status == OutDryRun || status == OutLinkExtracted || status == OutLinkReady
  }

  /** Where the item and its task go after an outcome; completion by delivery is handled apart. */
  function FinalState(status: OutcomeStatus): QueueState
    requires status != OutUnknown
  {
    match status
    case OutCompleted | OutLinkExtracted | OutLinkReady => QueueState.Completed
    case OutManualReview => QueueState.ManualReview
    case OutFailed => QueueState.Failed
    case OutDryRun => QueueState.DryRun
  }

  function FinalStatus(status: OutcomeStatus): TaskStatus
    requires status != OutUnknown
  {
    match status
    case OutCompleted => TaskStatus.Completed
    case OutLinkExtracted => LinkExtracted
    case OutLinkReady => LinkReady
    case OutManualReview => TaskStatus.ManualReview
    case OutFailed => TaskStatus.Failed
    case OutDryRun => TaskStatus.DryRun
  }

  /** process_claimed up to the executor call, for a claimed item. */
  function Start(db: Db, id: string): Result<Db> {
    if id !in db.items then Err(NotFound)
    else
      var item := db.items[id];
      if item.state != QueueState.Claimed then Err(Conflict)
      else if item.taskId !in db.tasks then Err(NotFound)
      else Ok(Store(db, item.(state := QueueState.Running), TaskStatus.Running))
  }

  /** complete_task: only the holder may complete an item. */
  function Complete(db: Db, id: string, worker: string): Result<Db> {
    if id !in db.items then Err(NotFound)
    else
      var item := db.items[id];
      if !HeldBy(item, worker) then Err(Conflict)
      else if item.taskId !in db.tasks then Err(NotFound)
      else Ok(Store(db, item.(state := QueueState.Completed), TaskStatus.Completed))
  }

  /** process_claimed from the executor's answer on, for a running item. */
  function Finish(db: Db, id: string, worker: string, e: Execution): Result<Db> {
    var outcome := OutcomeOf(e);
    if id !in db.items then Err(NotFound)
    else
      var item := db.items[id];
      if item.state != QueueState.Running then Err(Conflict)
      else if item.taskId !in db.tasks then Err(NotFound)
      else if outcome.status == OutUnknown then Err(Invalid)
      else if outcome.status == OutCompleted then Complete(db, id, worker)
      else
        var linked := outcome.status == OutLinkExtracted || outcome.status == OutLinkReady;
        Ok(Store(db, item.(
          state := FinalState(outcome.status),
          failureCode := if linked then None else outcome.failureCode,
          retrySafe := !linked && outcome.retrySafe), FinalStatus(outcome.status)))
  }

  /** process_claimed as a whole: an item that is not claimed is skipped. */
  function Process(db: Db, id: string, worker: string, e: Execution): Result<Db> {
    if id !in db.items then Err(NotFound)
    else if db.items[id].state != QueueState.Claimed then Ok(db)
    else
      match Start(db, id)
      case Err(error) => Err(error)
      case Ok(started) => Finish(started, id, worker, e)
  }

  /** The same from the worker's copy of the row: its first update overwrites whatever the row has become. */
  function ProcessCopy(db: Db, claimed: QueueItem, worker: string, e: Execution): Result<Db> {
    if claimed.state != QueueState.Claimed then Ok(db)
    else if claimed.id !in db.items then Err(NotFound)
    else Process(db.(items := db.items[claimed.id := claimed]), claimed.id, worker, e)
  }

  lemma StartingACopy(db: Db, claimed: QueueItem)
    requires Keyed(db) && claimed.id in db.items && claimed.state == QueueState.Claimed
    ensures var running := claimed.(state := QueueState.Running);
      var started := Db(SetStatus(db.tasks, claimed.taskId, TaskStatus.Running), db.items[claimed.id := running]);
      && Start(db.(items := db.items[claimed.id := claimed]), claimed.id)
        == (if claimed.taskId in db.tasks then Ok(started) else Err(NotFound))
      && Keyed(started)
  {
    var running := claimed.(state := QueueState.Running);
    assert db.items[claimed.id := claimed][claimed.id := running] == db.items[claimed.id := running];
  }

  /** With a copy that is up to date this is processing the row itself. */
  lemma CurrentCopyIsTheRow(db: Db, claimed: QueueItem, worker: string, e: Execution)
    requires claimed.id in db.items && db.items[claimed.id] == claimed
    ensures ProcessCopy(db, claimed, worker, e) == Process(db, claimed.id, worker, e)
  {
    assert db.items[claimed.id := claimed] == db.items;
  }

  /** The events stored for an outcome: its own, and an error event when an unsuccessful outcome brings none. */
  function BuildEvents(outcome: ExecutionOutcome): (events: seq<Level>)
    ensures outcome.events <= events
    ensures Succeeded(outcome.status) ==> events == outcome.events
    ensures !Succeeded(outcome.status) ==> ErrorLevel in events
  {
    if Succeeded(outcome.status) || ErrorLevel in outcome.events then outcome.events
    else outcome.events + [ErrorLevel]
  }

  // ---- admission: three paths, three ideas of a finished item ----

  function AddItem(db: Db, item: QueueItem): Result<Db> {
    if item.id in db.items then Err(Integrity) else Ok(db.(items := db.items[item.id := item]))
  }

  /** The task as a manual enqueue leaves it: a finished one waits again, a rehearsed one starts over. */
  function Rearmed(task: DramaTask, target: Stage): (rearmed: DramaTask)
    ensures rearmed.id == task.id
  {
    var aimed := task.(targetStage := target);
    match task.status
    case DryRun => aimed.(
      status := Waiting, linkSet := map[], linkStatus := NotStarted, deliveryDramaId := "",
      promotionConfigs := map[], currentStage := WaitingAvailableTime)
    case Completed | Cancelled => aimed.(status := Waiting)
    case _ => aimed
  }

  function Revived(item: QueueItem, availableAt: Time): QueueItem {
    Unclaimed(item, QueueState.WaitingTime).(availableAt := availableAt, attemptCount := 0, nextRunAt := None)
  }

  /** The queue part of enqueue_task: retry the active item, revive the newest finished one, or create the first. */
  ghost function Readmit(db: Db, task: DramaTask, newId: string, now: Time): Result<Db>
    requires KeyedItems(db.items)
  {
    match ActiveRow(db.items, task.id)
    case Some(active) => if NeedsRetry(active.state) then Retry(db, active.id) else Err(Conflict)
    case None =>
      match NewestRow(db.items, task.id)
      case Some(last) => Ok(db.(items := db.items[last.id := Revived(last, task.availableTime)]))
      case None => AddItem(db, NewItem(newId, task.id, task.availableTime, now))
  }

  ghost function Enqueue(db: Db, taskId: string, target: Stage, soleCandidate: bool, newId: string,
      now: Time): Result<Db>
    requires Keyed(db)
  {
    if taskId !in db.tasks then Err(NotFound)
    else
      var task := db.tasks[taskId];
      if task.linkStatus == DramaMismatch && !task.matchConfirmed && !soleCandidate then Err(Conflict)
      else Readmit(db.(tasks := db.tasks[taskId := Rearmed(task, target)]), Rearmed(task, target), newId, now)
  }

  /** delete_task: the task goes, and all its items with it. */
  function Delete(db: Db, taskId: string): Result<Db> {
    if taskId !in db.tasks then Err(NotFound)
    else Ok(Db(db.tasks - {taskId}, map id | id in db.items && db.items[id].taskId != taskId :: db.items[id]))
  }

  /** _ensure_queue of the preparation service. */
  function EnsureQueue(db: Db, taskId: string, newId: string, now: Time): Result<Db> {
    if taskId !in db.tasks then Err(NotFound)
    else if exists id :: id in db.items && db.items[id].taskId == taskId && ActiveForPreparation(db.items[id].state)
    then Ok(db)
    else AddItem(db, NewItem(newId, taskId, db.tasks[taskId].availableTime, now))
  }

  /** _ensure_queue_item of the scheduler; the flag says whether an item was created. */
  ghost function EnsureQueueItem(db: Db, task: DramaTask, newId: string, now: Time): Result<(Db, bool)>
    requires KeyedItems(db.items)
  {
    if task.status == TaskStatus.DryRun then Ok((db, false))
    else
      match ActiveRow(db.items, task.id)
      case Some(active) =>
        if active.state == QueueState.WaitingTime && active.availableAt != task.availableTime
        then Ok((db.(items := db.items[active.id := active.(availableAt := task.availableTime)]), false))
        else Ok((db, false))
      case None =>
        if NewestRow(db.items, task.id).Some? then Ok((db, false))
        else
          match AddItem(db, NewItem(newId, task.id, task.availableTime, now))
          case Err(error) => Err(error)
          case Ok(added) => Ok((added, true))
  }
}
