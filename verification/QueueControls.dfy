/** The controls of the queue one by one: when each may be used, what it changes, and what takes it back. */
module QueueControls {
  import opened Basics
  import opened QueueStates
  import opened Records
  import opened QueueTable
  import opened QueueOperations

  /** Only the item `id` and the status of its task may differ. */
  ghost predicate OnlyItem(before: Db, after: Db, id: string) {
    && id in before.items && id in after.items
    && after.items == before.items[id := after.items[id]]
    && after.items[id].taskId == before.items[id].taskId
    && after.tasks.Keys == before.tasks.Keys
    && forall t :: t in before.tasks ==>
      if t == before.items[id].taskId then after.tasks[t] == before.tasks[t].(status := after.tasks[t].status)
      else after.tasks[t] == before.tasks[t]
  }

  // ---- the table, seen from where a move leads ----

  /** From which states each state can be entered; nothing moves to waiting. */
  lemma TableByTarget(x: QueueState, y: QueueState)
    ensures CanTransition(x, y) <==>
      match y
      case WaitingTime => false
      case Queued => x !in {Queued, QueueState.Completed, QueueState.Cancelled, QueueState.DryRun}
      case Claimed => x == Queued
      case Running => x in {QueueState.Claimed, Paused}
      case RetryWait => x == QueueState.Running
      case Paused => x in {Queued, QueueState.Claimed, QueueState.Running}
      case ManualReview => x in {QueueState.Claimed, QueueState.Running, RetryWait}
      case Failed => x == QueueState.Running
      case DryRun => x == QueueState.Running
      case Completed => x in {QueueState.Claimed, QueueState.Running}
      case Cancelled => x in {Queued, QueueState.Claimed, QueueState.Running, Paused, QueueState.ManualReview}
    ensures Transition(x, y) == if CanTransition(x, y) then Ok(y) else Err(Conflict)
    ensures Unfinished(x) <==>
      x in {QueueState.WaitingTime, Queued, QueueState.Claimed, QueueState.Running, RetryWait, Paused,
        QueueState.ManualReview, QueueState.Failed}
  {
  }

  // ---- the statements on the whole table ----

  /** Row by row: due items are admitted, expired ones recovered, and nothing else changes. */
  lemma SweepsRowByRow(items: Items, now: Time, maxAttempts: int, id: string)
    requires id in items
    ensures var (row, admitted, recovered) := (items[id], Admit(items, now), Recover(items, now, maxAttempts));
      && admitted.Keys == recovered.Keys == items.Keys
      && admitted[id] == (if row.state == QueueState.WaitingTime && row.availableAt <= now then row.(state := Queued)
                          else row)
      && recovered[id] ==
        if row.state in {QueueState.Claimed, QueueState.Running} && row.leaseUntil.Some? && row.leaseUntil.value < now
        then row.(state := if row.attemptCount < maxAttempts then Queued else QueueState.ManualReview,
          attemptCount := row.attemptCount + 1, claimedBy := None, leaseUntil := None)
        else row
  {
  }

  /** A higher priority, or at the same priority an earlier release; the same release is decided by id. */
  predicate Precedes(x: QueueItem, y: QueueItem) {
    || x.priority > y.priority
    || (x.priority == y.priority && x.availableAt < y.availableAt)
    || (x.priority == y.priority && x.availableAt == y.availableAt && TextLess(x.id, y.id))
  }

  /** Claiming, renewing and releasing write one row; the claimed one is a queued one that no other comes before. */
  lemma HoldsRowByRow(items: Items, worker: string, leaseSeconds: Time, now: Time, id: string)
    requires KeyedItems(items)
    ensures match NextClaim(items)
      case None => Claim(items, worker, leaseSeconds, now) == items
      case Some(row) =>
        && row.state == Queued && row.id in items && items[row.id] == row
        && Claim(items, worker, leaseSeconds, now) == items[row.id := row.(
          state := QueueState.Claimed, claimedBy := Some(worker), leaseUntil := Some(now + leaseSeconds))]
        && forall x :: x in items && items[x].state == Queued && x != row.id ==> !Precedes(items[x], row)
    ensures Renew(items, id, worker, leaseSeconds, now) ==
      if id in items && InHandsOf(items[id], worker)
      then items[id := items[id].(leaseUntil := Some(now + leaseSeconds))] else items
    ensures Release(items, id, worker) ==
      if id in items && InHandsOf(items[id], worker)
      then items[id := items[id].(state := Queued, claimedBy := None, leaseUntil := None)] else items
  {
    if NextClaim(items).Some? {
      var row := NextClaim(items).value;
      forall x | x in items && items[x].state == Queued && x != row.id ensures !Precedes(items[x], row) {
        NextComesFirst(items, row, items[x]);
      }
    }
  }

  lemma NextComesFirst(items: Items, row: QueueItem, other: QueueItem)
    requires KeyedItems(items) && NextClaim(items) == Some(row)
    requires other.id in items && items[other.id] == other && other.state == Queued && other != row
    ensures !Precedes(other, row)
  {
    assert other in RowsIn(items, Queued);
    assert Before(row, other);
    TextLessIsTotal(row.id, other.id);
  }

  /** In the worker's hands. */
  predicate InHandsOf(item: QueueItem, worker: string) {
    item.state in {QueueState.Claimed, QueueState.Running} && item.claimedBy == Some(worker)
  }

  /** The item `id` became `item`, its task has the status, and nothing else changed. */
  ghost predicate Becomes(before: Db, after: Db, id: string, item: QueueItem, status: TaskStatus) {
    && OnlyItem(before, after, id) && after.items[id] == item
    && (item.taskId in before.tasks ==> after.tasks[item.taskId].status == status)
  }

  /** Queued items anyone may pause, items in flight only their holder; the item loses its claim, its task runs on. */
  lemma PauseIsGuarded(db: Db, id: string, worker: string)
    requires Keyed(db)
    ensures Pause(db, id, worker).Ok? <==>
      id in db.items && (db.items[id].state == Queued || InHandsOf(db.items[id], worker))
    ensures Pause(db, id, worker).Ok? ==> Becomes(db, Pause(db, id, worker).value, id,
      db.items[id].(state := Paused, claimedBy := None, leaseUntil := None), TaskStatus.Running)
    ensures Pause(db, id, worker).Err? ==>
      Pause(db, id, worker).error == if id in db.items then Conflict else NotFound
  {
  }

  /** Waiting, failed and finished items cannot be cancelled; items in flight only by their holder. */
  lemma CancelIsGuarded(db: Db, id: string, worker: string)
    requires Keyed(db)
    ensures Cancel(db, id, worker).Ok? <==>
      && id in db.items
      && (db.items[id].state in {Queued, Paused, QueueState.ManualReview} || InHandsOf(db.items[id], worker))
    ensures Cancel(db, id, worker).Ok? ==> Becomes(db, Cancel(db, id, worker).value, id,
      db.items[id].(state := QueueState.Cancelled, claimedBy := None, leaseUntil := None), TaskStatus.Cancelled)
    ensures Cancel(db, id, worker).Err? ==>
      Cancel(db, id, worker).error == if id in db.items then Conflict else NotFound
  {
  }

  /** Only a paused item is resumed; it is queued, and its task is ready. */
  lemma ResumeIsGuarded(db: Db, id: string)
    requires Keyed(db)
    ensures Resume(db, id).Ok? <==> id in db.items && db.items[id].state == Paused
    ensures Resume(db, id).Ok? ==>
      Becomes(db, Resume(db, id).value, id, db.items[id].(state := Queued), TaskStatus.Ready)
    ensures Resume(db, id).Err? ==> Resume(db, id).error == if id in db.items then Conflict else NotFound
  {
  }

  /** A retry needs a stopped item whose result is certain or safe to repeat; it starts counting anew. */
  lemma RetryIsGuarded(db: Db, id: string)
    requires Keyed(db)
    ensures Retry(db, id).Ok? <==>
      && id in db.items && db.items[id].state in {QueueState.ManualReview, QueueState.Failed, RetryWait}
      && !(db.items[id].failureCode == Some("RESULT_UNCERTAIN") && !db.items[id].retrySafe)
    ensures Retry(db, id).Ok? ==> Becomes(db, Retry(db, id).value, id,
      db.items[id].(state := Queued, attemptCount := 0, claimedBy := None, leaseUntil := None,
        failureCode := None, retrySafe := false), TaskStatus.Ready)
    ensures Retry(db, id).Err? ==> Retry(db, id).error == if id in db.items then Conflict else NotFound
  {
  }

  /** Only the holder completes an item or sends it to review: completed it keeps its claim, in review it loses it. */
  lemma OnlyTheHolderEnds(db: Db, id: string, worker: string)
    requires Keyed(db)
    ensures MarkManualReview(db, id, worker).Ok? <==> id in db.items && InHandsOf(db.items[id], worker)
    ensures Complete(db, id, worker).Ok? <==>
      id in db.items && InHandsOf(db.items[id], worker) && db.items[id].taskId in db.tasks
    ensures MarkManualReview(db, id, worker).Ok? ==> Becomes(db, MarkManualReview(db, id, worker).value, id,
      db.items[id].(state := QueueState.ManualReview, claimedBy := None, leaseUntil := None), TaskStatus.ManualReview)
    ensures Complete(db, id, worker).Ok? ==> Becomes(db, Complete(db, id, worker).value, id,
      db.items[id].(state := QueueState.Completed), TaskStatus.Completed)
    ensures MarkManualReview(db, id, worker).Err? ==>
      MarkManualReview(db, id, worker).error == if id in db.items then Conflict else NotFound
    ensures Complete(db, id, worker).Err? ==>
      Complete(db, id, worker).error ==
        if id in db.items && !InHandsOf(db.items[id], worker) then Conflict else NotFound
  {
  }

  // ---- where an execution ends ----

  /** The database with the item ended: its state, failure code and retry mark, and the status of its task. */
  function Ended(db: Db, id: string, state: QueueState, status: TaskStatus, failureCode: Option<string>,
                 retrySafe: bool): Db
    requires id in db.items && db.items[id].taskId in db.tasks
  {
    var taskId := db.items[id].taskId;
    Db(db.tasks[taskId := db.tasks[taskId].(status := status)],
       db.items[id := db.items[id].(state := state, failureCode := failureCode, retrySafe := retrySafe)])
  }

  /** Where an item in the hands of its worker ends, for each answer of the executor. */
  ghost predicate EndsByAnswer(db: Db, r: Result<Db>, id: string, worker: string, e: Execution)
    requires id in db.items && db.items[id].taskId in db.tasks
  {
    var item := db.items[id];
    match e
    case Raised => r == Ok(Ended(db, id, QueueState.ManualReview, TaskStatus.ManualReview, None, false))
    case Returned(ExecutionOutcome(status, _, _, code, safe)) =>
      match status
      case OutCompleted =>
        r == if item.claimedBy == Some(worker)
             then Ok(Ended(db, id, QueueState.Completed, TaskStatus.Completed, item.failureCode, item.retrySafe))
             else Err(Conflict)
      case OutManualReview => r == Ok(Ended(db, id, QueueState.ManualReview, TaskStatus.ManualReview, code, safe))
      case OutFailed => r == Ok(Ended(db, id, QueueState.Failed, TaskStatus.Failed, code, safe))
      case OutDryRun => r == Ok(Ended(db, id, QueueState.DryRun, TaskStatus.DryRun, code, safe))
      case OutLinkExtracted => r == Ok(Ended(db, id, QueueState.Completed, LinkExtracted, None, false))
      case OutLinkReady => r == Ok(Ended(db, id, QueueState.Completed, LinkReady, None, false))
      case OutUnknown => r == Err(Invalid)
  }

  lemma StartingRuns(db: Db, id: string)
    requires Keyed(db) && id in db.items && db.items[id].state == QueueState.Claimed
    requires db.items[id].taskId in db.tasks
    ensures var item := db.items[id];
      Start(db, id) == Ok(Ended(db, id, QueueState.Running, TaskStatus.Running, item.failureCode, item.retrySafe))
  {
  }

  lemma FinishingEnds(db: Db, id: string, worker: string, e: Execution)
    requires Keyed(db) && id in db.items && db.items[id].state == QueueState.Running
    requires db.items[id].taskId in db.tasks
    ensures EndsByAnswer(db, Finish(db, id, worker, e), id, worker, e)
  {
  }

  lemma EndedTwice(db: Db, id: string, state: QueueState, status: TaskStatus, code: Option<string>, safe: bool)
    requires id in db.items && db.items[id].taskId in db.tasks
    ensures var item := db.items[id];
      var started := Ended(db, id, QueueState.Running, TaskStatus.Running, item.failureCode, item.retrySafe);
      Ended(started, id, state, status, code, safe) == Ended(db, id, state, status, code, safe)
  {
  }

  /**
   * What processing a claimed item comes to, for each answer of the executor. A delivered task completes only in
   * the hands of the worker; an exception is a review without a code; an unknown status undoes everything.
   */
  lemma ProcessingEnds(db: Db, id: string, worker: string, e: Execution)
    requires Keyed(db) && id in db.items && db.items[id].state == QueueState.Claimed
    requires db.items[id].taskId in db.tasks
    ensures EndsByAnswer(db, Process(db, id, worker, e), id, worker, e)
  {
    hide Start, Finish, Ended;
    var item := db.items[id];
    StartingRuns(db, id);
    EndedIsKeyed(db, id, QueueState.Running, TaskStatus.Running, item.failureCode, item.retrySafe);
    FinishingEnds(Start(db, id).value, id, worker, e);
    forall state, status, code, safe {
      EndedTwice(db, id, state, status, code, safe);
    }
  }

  lemma EndedIsKeyed(db: Db, id: string, state: QueueState, status: TaskStatus, code: Option<string>, safe: bool)
    requires Keyed(db) && id in db.items && db.items[id].taskId in db.tasks
    ensures var after := Ended(db, id, state, status, code, safe);
      && Keyed(after) && id in after.items && after.items[id].taskId in after.tasks
      && after.items[id] == db.items[id].(state := state, failureCode := code, retrySafe := safe)
  {
  }

  /** A review, a failure or an unknown status without an error event gets one more event, any other answer none. */
  lemma OnlyErrorsAreAdded(outcome: ExecutionOutcome)
    ensures var added := if ErrorLevel in outcome.events then [] else [ErrorLevel];
      BuildEvents(outcome) ==
        if outcome.status in {OutManualReview, OutFailed, OutUnknown} then outcome.events + added else outcome.events
  {
  }

  /** An item that is not claimed is skipped, and a claimed one needs its row and its task. */
  lemma ProcessingSkips(db: Db, id: string, worker: string, e: Execution)
    requires Keyed(db)
    ensures id !in db.items ==> Process(db, id, worker, e) == Err(NotFound)
    ensures id in db.items && db.items[id].state != QueueState.Claimed ==> Process(db, id, worker, e) == Ok(db)
    ensures id in db.items && db.items[id].state == QueueState.Claimed && db.items[id].taskId !in db.tasks ==>
      Process(db, id, worker, e) == Err(NotFound)
  {
  }

  /** With a stale copy of a claimed row the row itself is as good as claimed; a row that is gone is not found. */
  lemma StaleCopyIsProcessed(db: Db, claimed: QueueItem, worker: string, e: Execution)
    requires Keyed(db)
    ensures claimed.state != QueueState.Claimed ==> ProcessCopy(db, claimed, worker, e) == Ok(db)
    ensures claimed.state == QueueState.Claimed && claimed.id !in db.items ==>
      ProcessCopy(db, claimed, worker, e) == Err(NotFound)
    ensures claimed.state == QueueState.Claimed && claimed.id in db.items && claimed.taskId in db.tasks ==>
      var copied := db.(items := db.items[claimed.id := claimed]);
      EndsByAnswer(copied, ProcessCopy(db, claimed, worker, e), claimed.id, worker, e)
  {
    hide Process, EndsByAnswer;
    if claimed.state == QueueState.Claimed && claimed.id in db.items && claimed.taskId in db.tasks {
      ProcessingEnds(db.(items := db.items[claimed.id := claimed]), claimed.id, worker, e);
    }
  }

  /** A task goes with exactly its items, and only a known one. */
  lemma DeletesTheTask(db: Db, taskId: string)
    ensures taskId !in db.tasks ==> Delete(db, taskId) == Err(NotFound)
    ensures taskId in db.tasks ==>
      && Delete(db, taskId).Ok?
      && var after := Delete(db, taskId).value;
      && (forall t :: t in after.tasks <==> t in db.tasks && t != taskId)
      && (forall t :: t in after.tasks ==> after.tasks[t] == db.tasks[t])
      && (forall id :: id in after.items <==> id in db.items && db.items[id].taskId != taskId)
      && (forall id :: id in after.items ==> after.items[id] == db.items[id])
  {
  }

  /** A queued item that was paused is resumed as it was; one in flight comes back without its claim. */
  lemma ResumeUndoesPause(db: Db, id: string, worker: string)
    requires Keyed(db) && Pause(db, id, worker).Ok?
    ensures Resume(Pause(db, id, worker).value, id).Ok?
    ensures var after := Resume(Pause(db, id, worker).value, id).value;
      && after.items == db.items[id := Unclaimed(db.items[id], Queued)]
      && (db.items[id].state == Queued && db.items[id].claimedBy == None && db.items[id].leaseUntil == None ==>
        after.items == db.items)
  {
  }

  /** The worker that claimed the next item gives it back as it was. */
  lemma ReleaseUndoesClaim(items: Items, worker: string, leaseSeconds: Time, now: Time)
    requires KeyedItems(items) && NextClaim(items).Some?
    requires NextClaim(items).value.claimedBy == None && NextClaim(items).value.leaseUntil == None
    ensures Release(Claim(items, worker, leaseSeconds, now), NextClaim(items).value.id, worker) == items
  {
  }

  // ---- which row an admission writes ----

  /** The one row a manual enqueue writes: the newest unfinished one is retried; without one the newest is revived. */
  ghost predicate Readmitted(before: Items, after: Items, task: DramaTask, newId: string, now: Time, id: string) {
    && id in after && after == before[id := after[id]] && after[id].taskId == task.id
    && (UnfinishedRows(before, task.id) != {} ==>
      && id in before && IsFirst(before[id], UnfinishedRows(before, task.id), Newer)
      && before[id].state in {QueueState.ManualReview, QueueState.Failed, RetryWait}
      && after[id] == before[id].(state := Queued, attemptCount := 0, claimedBy := None, leaseUntil := None,
        failureCode := None, retrySafe := false))
    && (UnfinishedRows(before, task.id) == {} != RowsOf(before, task.id) ==>
      && id in before && IsFirst(before[id], RowsOf(before, task.id), Newer)
      && after[id] == before[id].(state := QueueState.WaitingTime, availableAt := task.availableTime,
        attemptCount := 0, claimedBy := None, leaseUntil := None, nextRunAt := None))
    && (RowsOf(before, task.id) == {} ==>
      id == newId && id !in before && IsNew(after[id], newId, task.id, task.availableTime, now))
  }

  lemma ReadmitsOneRow(db: Db, task: DramaTask, newId: string, now: Time)
    requires Keyed(db) && Readmit(db, task, newId, now).Ok?
    ensures exists id :: Readmitted(db.items, Readmit(db, task, newId, now).value.items, task, newId, now, id)
    ensures task.id in db.tasks ==>
      && task.id in Readmit(db, task, newId, now).value.tasks
      && Readmit(db, task, newId, now).value.tasks[task.id] ==
        if UnfinishedRows(db.items, task.id) != {} then db.tasks[task.id].(status := TaskStatus.Ready)
        else db.tasks[task.id]
  {
    hide Retry;
    var after := Readmit(db, task, newId, now).value.items;
    ActiveIsUnfinished(db.items, task.id);
    match ActiveRow(db.items, task.id)
    case Some(active) =>
      RetryIsGuarded(db, active.id);
      assert Readmitted(db.items, after, task, newId, now, active.id);
    case None =>
      var newest := NewestRow(db.items, task.id);
      assert Readmitted(db.items, after, task, newId, now, if newest.Some? then newest.value.id else newId);
  }

  /** When a manual enqueue passes, and what it makes of the task: a finished one waits, a rehearsed one starts over. */
  lemma EnqueueIsGuarded(db: Db, taskId: string, target: Stage, sole: bool, newId: string, now: Time)
    requires Keyed(db)
    ensures var r := Enqueue(db, taskId, target, sole, newId, now);
      && (taskId !in db.tasks ==> r == Err(NotFound))
      && (taskId in db.tasks ==>
        var (task, items) := (db.tasks[taskId], db.items);
        var open := task.linkStatus == DramaMismatch && !task.matchConfirmed && !sole;
        && (open ==> r == Err(Conflict))
        && (!open && UnfinishedRows(items, taskId) != {} ==>
          (r.Ok? <==> Retry(db, ActiveRow(items, taskId).value.id).Ok?) && (r.Err? ==> r.error == Conflict))
        && (!open && UnfinishedRows(items, taskId) == {} != RowsOf(items, taskId) ==> r.Ok?)
        && (!open && RowsOf(items, taskId) == {} ==>
          (r.Ok? <==> newId !in items) && (r.Err? ==> r.error == Integrity)))
  {
    if taskId in db.tasks {
      var rearmed := db.(tasks := db.tasks[taskId := Rearmed(db.tasks[taskId], target)]);
      ActiveIsUnfinished(db.items, taskId);
      if ActiveRow(db.items, taskId).Some? {
        RetryIsGuarded(db, ActiveRow(db.items, taskId).value.id);
        RetryIgnoresTasks(db, rearmed, ActiveRow(db.items, taskId).value.id);
      }
    }
  }

  lemma RetryIgnoresTasks(db: Db, other: Db, id: string)
    requires db.items == other.items
    ensures Retry(db, id).Ok? <==> Retry(other, id).Ok?
    ensures Retry(other, id).Err? ==> Retry(other, id).error == Retry(db, id).error
  {
  }

  lemma ActiveIsUnfinished(items: Items, taskId: string)
    requires KeyedItems(items)
    ensures ActiveRow(items, taskId).Some? <==> UnfinishedRows(items, taskId) != {}
    ensures NewestRow(items, taskId).Some? <==> RowsOf(items, taskId) != {}
  {
    if ActiveRow(items, taskId).Some? {
      assert ActiveRow(items, taskId).value in UnfinishedRows(items, taskId);
    }
    if NewestRow(items, taskId).Some? {
      assert NewestRow(items, taskId).value in RowsOf(items, taskId);
    }
  }

  /** What a manual enqueue makes of the task. */
  lemma RearmsTheTask(task: DramaTask, target: Stage)
    ensures var finished := task.status in {TaskStatus.DryRun, TaskStatus.Completed, TaskStatus.Cancelled};
      var aimed := task.(targetStage := target, status := if finished then Waiting else task.status);
      Rearmed(task, target) ==
        if task.status == TaskStatus.DryRun
        then aimed.(linkSet := map[], linkStatus := NotStarted, deliveryDramaId := "", promotionConfigs := map[],
          currentStage := WaitingAvailableTime)
        else aimed
  {
  }

  /** A new item waits for the task's time, unowned, never attempted. */
  predicate IsNew(item: QueueItem, id: string, taskId: string, availableAt: Time, now: Time) {
    && item.id == id && item.taskId == taskId && item.state == QueueState.WaitingTime && item.priority == 0
    && item.availableAt == availableAt && item.createdAt == now && item.claimedBy == None && item.leaseUntil == None
    && item.attemptCount == 0 && item.nextRunAt == None && item.failureCode == None && !item.retrySafe
  }

  /** Some item of the task is neither completed nor cancelled. */
  predicate Occupied(items: Items, taskId: string) {
    exists id :: id in items && items[id].taskId == taskId
      && items[id].state !in {QueueState.Completed, QueueState.Cancelled}
  }

  /** Preparation adds one new item unless some item of the task is neither completed nor cancelled. */
  lemma PreparesOneRow(db: Db, taskId: string, newId: string, now: Time)
    requires Keyed(db)
    ensures var r := EnsureQueue(db, taskId, newId, now);
      if taskId !in db.tasks then r == Err(NotFound)
      else if Occupied(db.items, taskId) then r == Ok(db)
      else if newId in db.items then r == Err(Integrity)
      else
        && r.Ok? && r.value.tasks == db.tasks && newId in r.value.items
        && r.value.items == db.items[newId := r.value.items[newId]]
        && IsNew(r.value.items[newId], newId, taskId, db.tasks[taskId].availableTime, now)
  {
  }

  /** The item is the task's newest unfinished one. */
  ghost predicate Foremost(items: Items, taskId: string, id: string) {
    id in items && items[id].taskId == taskId && IsFirst(items[id], UnfinishedRows(items, taskId), Newer)
  }

  /** The scheduler only creates an item for a task that never had one, and only moves a waiting item's time. */
  lemma SchedulesOneRow(db: Db, task: DramaTask, newId: string, now: Time)
    requires Keyed(db) && EnsureQueueItem(db, task, newId, now).Ok?
    ensures var (after, created) := EnsureQueueItem(db, task, newId, now).value;
      && after.tasks == db.tasks
      && (created ==>
        && RowsOf(db.items, task.id) == {} && newId !in db.items && newId in after.items
        && after.items == db.items[newId := after.items[newId]]
        && IsNew(after.items[newId], newId, task.id, task.availableTime, now))
      && (!created ==> after.items.Keys == db.items.Keys && forall id :: id in db.items ==>
           || after.items[id] == db.items[id]
           || (db.items[id].taskId == task.id && db.items[id].state == QueueState.WaitingTime
               && after.items[id] == db.items[id].(availableAt := task.availableTime)))
      && (task.status == TaskStatus.DryRun ==> after == db && !created)
      && (task.status != TaskStatus.DryRun && RowsOf(db.items, task.id) == {} ==> created)
      && (task.status != TaskStatus.DryRun ==> forall id :: Foremost(db.items, task.id, id) ==>
        (db.items[id].state == QueueState.WaitingTime ==> after.items[id].availableAt == task.availableTime))
  {
    ActiveIsUnfinished(db.items, task.id);
    forall id | Foremost(db.items, task.id, id)
      ensures ActiveRow(db.items, task.id) == Some(db.items[id])
    {
      SelectionIsUnique(db.items, UnfinishedRows(db.items, task.id), Some(db.items[id]), ActiveRow(db.items, task.id));
    }
  }

  /** The scheduler's admission fails only when a task without an item is given an id in use. */
  lemma SchedulingFails(db: Db, task: DramaTask, newId: string, now: Time)
    requires Keyed(db)
    ensures EnsureQueueItem(db, task, newId, now).Err? <==>
      task.status != TaskStatus.DryRun && RowsOf(db.items, task.id) == {} && newId in db.items
    ensures EnsureQueueItem(db, task, newId, now).Err? ==> EnsureQueueItem(db, task, newId, now).error == Integrity
  {
    ActiveIsUnfinished(db.items, task.id);
    if ActiveRow(db.items, task.id).Some? {
      assert ActiveRow(db.items, task.id).value in RowsOf(db.items, task.id);
    }
  }
}
