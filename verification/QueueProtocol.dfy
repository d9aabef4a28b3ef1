/**
 * The queue protocol: every service call is one step on the database, in any order and any number.
 * The module proves what every reachable database keeps, which moves a step can make, and how long
 * an item can move without an operator.
 */
module QueueProtocol {
  import opened Basics
  import opened QueueStates
  import opened Records
  import opened QueueTable
  import opened QueueOperations
  import Scheduling

  datatype Step =
    | AdmitReady(now: Time)
    | ClaimNext(now: Time, worker: string, leaseSeconds: Time)
    | StartItem(id: string)
    | FinishItem(id: string, worker: string, execution: Execution)
    | CompleteItem(id: string, worker: string)
    | RenewLease(now: Time, id: string, worker: string, leaseSeconds: Time)
    | ReleaseItem(id: string, worker: string)
    | RecoverExpired(now: Time, maxAttempts: int)
    | PauseItem(id: string, worker: string)
    | ResumeItem(id: string)
    | CancelItem(id: string, worker: string)
    | RetryItem(id: string)
    | ReviewItem(id: string, worker: string)
    | EnqueueTask(now: Time, taskId: string, target: Stage, soleCandidate: bool, newId: string)
    | PrepareTask(now: Time, taskId: string, newId: string)
    | ScanSource(now: Time, source: DramaTask, uuids: Scheduling.Uuids)
    | StoreTask(task: DramaTask)
    | DeleteTask(taskId: string)

  function OrElse(r: Result<Db>, db: Db): Db {
    match r
    case Ok(after) => after
    case Err(_) => db
  }

  /** One service call; a failed call leaves the database alone. */
  ghost function Next(db: Db, step: Step): Db
    requires Keyed(db)
  {
    match step
    case AdmitReady(now) => db.(items := Admit(db.items, now))
    case ClaimNext(now, worker, leaseSeconds) => db.(items := Claim(db.items, worker, leaseSeconds, now))
    case StartItem(id) => OrElse(Start(db, id), db)
    case FinishItem(id, worker, e) => OrElse(Finish(db, id, worker, e), db)
    case CompleteItem(id, worker) => OrElse(Complete(db, id, worker), db)
    case RenewLease(now, id, worker, leaseSeconds) => db.(items := Renew(db.items, id, worker, leaseSeconds, now))
    case ReleaseItem(id, worker) => db.(items := Release(db.items, id, worker))
    case RecoverExpired(now, maxAttempts) => db.(items := Recover(db.items, now, maxAttempts))
    case PauseItem(id, worker) => OrElse(Pause(db, id, worker), db)
    case ResumeItem(id) => OrElse(Resume(db, id), db)
    case CancelItem(id, worker) => OrElse(Cancel(db, id, worker), db)
    case RetryItem(id) => OrElse(Retry(db, id), db)
    case ReviewItem(id, worker) => OrElse(MarkManualReview(db, id, worker), db)
    case EnqueueTask(now, taskId, target, sole, newId) => OrElse(Enqueue(db, taskId, target, sole, newId, now), db)
    case PrepareTask(now, taskId, newId) => OrElse(EnsureQueue(db, taskId, newId, now), db)
    // creating a task, storing its links or ids, confirming a match: any call that writes no queue row
    case StoreTask(task) => db.(tasks := db.tasks[task.id := task])
    case DeleteTask(taskId) => OrElse(Delete(db, taskId), db)
    case ScanSource(now, source, uuids) =>
      match Scheduling.SyncSource(db, source, uuids, now, Scheduling.NO_COUNTS)
      case Err(_) => db
      case Ok((after, _)) => after
  }

  /** The clock after a step: calls that read the time read one no earlier than any before. */
  function ClockAfter(clock: Time, step: Step): Time {
    match step
    case AdmitReady(now) => now
    case ClaimNext(now, _, _) => now
    case RenewLease(now, _, _, _) => now
    case RecoverExpired(now, _) => now
    case EnqueueTask(now, _, _, _, _) => now
    case PrepareTask(now, _, _) => now
    case ScanSource(now, _, _) => now
    case _ => clock
  }

  // ---- the three shapes of a step ----

  /** Items nobody works on have no owner and no lease; items in flight have both. */
  predicate Owned(item: QueueItem) {
    match item.state
    case WaitingTime | Queued | Paused => item.claimedBy == None && item.leaseUntil == None
    case Claimed | Running => item.claimedBy.Some? && item.leaseUntil.Some?
    case _ => true
  }

  /** Only a waiting item may lie in the future. */
  predicate Due(item: QueueItem, clock: Time) {
    item.state != QueueState.WaitingTime ==> item.availableAt <= clock
  }

  /** One row changed by a call at `now`: along the table, keeping its identity, ownership and timing. */
  ghost predicate RowMoves(before: QueueItem, after: QueueItem, now: Time) {
    && after.id == before.id
    && after.taskId == before.taskId
    && (after.state == before.state || CanTransition(before.state, after.state))
    && (Owned(before) ==> Owned(after))
    && (Due(before, now) ==> Due(after, now))
  }

  /** Rows move each on its own; none appears or disappears. */
  ghost predicate RowsMove(before: Items, after: Items, now: Time) {
    after.Keys == before.Keys && forall id :: id in before ==> RowMoves(before[id], after[id], now)
  }

  /** One waiting item enters for a task that has no unfinished item, new or in the place of a finished one. */
  ghost predicate Admits(before: Items, after: Items, item: QueueItem) {
    && after == before[item.id := item]
    && item.state == QueueState.WaitingTime && Owned(item)
    && (forall id :: id in before && before[id].taskId == item.taskId ==> !Unfinished(before[id].state))
    && (item.id in before ==> before[item.id].taskId == item.taskId)
  }

  /** Either rows move, or one item enters; only where `revives` may it take the place of a finished one. */
  ghost predicate Shaped(before: Items, after: Items, now: Time, revives: bool) {
    RowsMove(before, after, now) || exists item :: Admits(before, after, item) && (item.id in before ==> revives)
  }

  /** The items of one task disappear; all others stay as they are. */
  ghost predicate Drops(before: Items, after: Items, taskId: string) {
    && after.Keys <= before.Keys
    && forall id :: id in before ==>
      (id in after <==> before[id].taskId != taskId) && (id in after ==> after[id] == before[id])
  }

  lemma OneRowMoves(items: Items, row: QueueItem, now: Time)
    requires KeyedItems(items) && row.id in items && RowMoves(items[row.id], row, now)
    ensures RowsMove(items, items[row.id := row], now)
  {
  }

  /** A call that fails, or that stores one item which moved, moves rows. */
  ghost predicate CallMoves(db: Db, r: Result<Db>, now: Time) {
    r.Ok? ==> Keyed(r.value) && RowsMove(db.items, r.value.items, now)
  }

  lemma StopMoves(db: Db, id: string, worker: string, target: QueueState, status: TaskStatus, now: Time)
    requires Keyed(db) && (target == Paused || target == QueueState.Cancelled)
    ensures CallMoves(db, Stop(db, id, worker, target, status), now)
  {
    if Stop(db, id, worker, target, status).Ok? {
      OneRowMoves(db.items, Unclaimed(db.items[id], target), now);
    }
  }

  lemma ResumeMoves(db: Db, id: string, now: Time)
    requires Keyed(db)
    ensures CallMoves(db, Resume(db, id), now)
  {
    if Resume(db, id).Ok? {
      OneRowMoves(db.items, Resume(db, id).value.items[id], now);
    }
  }

  lemma RetryMoves(db: Db, id: string, now: Time)
    requires Keyed(db)
    ensures CallMoves(db, Retry(db, id), now)
  {
    if Retry(db, id).Ok? {
      OneRowMoves(db.items, Retry(db, id).value.items[id], now);
    }
  }

  lemma ReviewMoves(db: Db, id: string, worker: string, now: Time)
    requires Keyed(db)
    ensures CallMoves(db, MarkManualReview(db, id, worker), now)
  {
    if MarkManualReview(db, id, worker).Ok? {
      OneRowMoves(db.items, Unclaimed(db.items[id], QueueState.ManualReview), now);
    }
  }

  lemma StartMoves(db: Db, id: string, now: Time)
    requires Keyed(db)
    ensures CallMoves(db, Start(db, id), now)
  {
    if Start(db, id).Ok? {
      OneRowMoves(db.items, Start(db, id).value.items[id], now);
    }
  }

  lemma CompleteMoves(db: Db, id: string, worker: string, now: Time)
    requires Keyed(db)
    ensures CallMoves(db, Complete(db, id, worker), now)
  {
    if Complete(db, id, worker).Ok? {
      OneRowMoves(db.items, Complete(db, id, worker).value.items[id], now);
    }
  }

  lemma FinishMoves(db: Db, id: string, worker: string, e: Execution, now: Time)
    requires Keyed(db)
    ensures CallMoves(db, Finish(db, id, worker, e), now)
  {
    CompleteMoves(db, id, worker, now);
    if Finish(db, id, worker, e).Ok? && OutcomeOf(e).status != OutCompleted {
      OneRowMoves(db.items, Finish(db, id, worker, e).value.items[id], now);
    }
  }

  lemma Unmoved(items: Items, now: Time)
    ensures RowsMove(items, items, now)
  {
  }

  lemma AdmitMoves(items: Items, now: Time)
    requires KeyedItems(items)
    ensures RowsMove(items, Admit(items, now), now) && KeyedItems(Admit(items, now))
  {
  }

  lemma RecoverMoves(items: Items, now: Time, maxAttempts: int)
    requires KeyedItems(items)
    ensures RowsMove(items, Recover(items, now, maxAttempts), now) && KeyedItems(Recover(items, now, maxAttempts))
  {
  }

  lemma RenewMoves(items: Items, id: string, worker: string, leaseSeconds: Time, at: Time, now: Time)
    requires KeyedItems(items)
    ensures RowsMove(items, Renew(items, id, worker, leaseSeconds, at), now)
    ensures KeyedItems(Renew(items, id, worker, leaseSeconds, at))
  {
    if id in items && HeldBy(items[id], worker) {
      OneRowMoves(items, Renew(items, id, worker, leaseSeconds, at)[id], now);
    }
  }

  lemma ReleaseMoves(items: Items, id: string, worker: string, now: Time)
    requires KeyedItems(items)
    ensures RowsMove(items, Release(items, id, worker), now) && KeyedItems(Release(items, id, worker))
  {
    if id in items && HeldBy(items[id], worker) {
      OneRowMoves(items, Unclaimed(items[id], Queued), now);
    }
  }

  lemma ClaimMoves(items: Items, worker: string, leaseSeconds: Time, at: Time, now: Time)
    requires KeyedItems(items)
    ensures RowsMove(items, Claim(items, worker, leaseSeconds, at), now)
    ensures KeyedItems(Claim(items, worker, leaseSeconds, at))
  {
    if NextClaim(items).Some? {
      OneRowMoves(items, ClaimedBy(NextClaim(items).value, worker, leaseSeconds, at), now);
    }
  }

  lemma ReadmitShape(db: Db, task: DramaTask, newId: string, now: Time, clock: Time)
    requires Keyed(db)
    requires Readmit(db, task, newId, now).Ok?
    ensures Shaped(db.items, Readmit(db, task, newId, now).value.items, clock, true)
    ensures Keyed(Readmit(db, task, newId, now).value)
  {
    match ActiveRow(db.items, task.id)
    case Some(active) =>
      RetryMoves(db, active.id, clock);
    case None =>
      var after := Readmit(db, task, newId, now).value.items;
      match NewestRow(db.items, task.id) {
        case Some(last) => assert Admits(db.items, after, Revived(last, task.availableTime));
        case None => assert Admits(db.items, after, NewItem(newId, task.id, task.availableTime, now));
      }
  }

  lemma RearmingKeepsKeys(db: Db, taskId: string, target: Stage)
    requires Keyed(db) && taskId in db.tasks
    ensures Rearmed(db.tasks[taskId], target).id == taskId
    ensures Keyed(db.(tasks := db.tasks[taskId := Rearmed(db.tasks[taskId], target)]))
  {
    hide Rearmed, KeyedItems;
  }

  lemma EnqueueShape(db: Db, now: Time, taskId: string, target: Stage, sole: bool, newId: string, clock: Time)
    requires Keyed(db)
    requires Enqueue(db, taskId, target, sole, newId, now).Ok?
    ensures Shaped(db.items, Enqueue(db, taskId, target, sole, newId, now).value.items, clock, true)
    ensures Keyed(Enqueue(db, taskId, target, sole, newId, now).value)
  {
    hide Readmit, Rearmed, Keyed, Shaped;
    var task := Rearmed(db.tasks[taskId], target);
    RearmingKeepsKeys(db, taskId, target);
    ReadmitShape(db.(tasks := db.tasks[taskId := task]), task, newId, now, clock);
  }

  lemma PrepareShape(db: Db, now: Time, taskId: string, newId: string, clock: Time)
    requires Keyed(db)
    requires EnsureQueue(db, taskId, newId, now).Ok?
    ensures Shaped(db.items, EnsureQueue(db, taskId, newId, now).value.items, clock, false)
    ensures Keyed(EnsureQueue(db, taskId, newId, now).value)
  {
    var after := EnsureQueue(db, taskId, newId, now).value;
    if after.items != db.items {
      assert Admits(db.items, after.items, NewItem(newId, taskId, db.tasks[taskId].availableTime, now));
    }
  }

  lemma ScheduleShape(db: Db, task: DramaTask, newId: string, now: Time, clock: Time)
    requires Keyed(db)
    requires EnsureQueueItem(db, task, newId, now).Ok?
    ensures Shaped(db.items, EnsureQueueItem(db, task, newId, now).value.0.items, clock, false)
    ensures Keyed(EnsureQueueItem(db, task, newId, now).value.0)
  {
    var after := EnsureQueueItem(db, task, newId, now).value.0;
    if task.status != TaskStatus.DryRun {
      match ActiveRow(db.items, task.id)
      case Some(active) =>
        OneRowMoves(db.items, after.items[active.id], clock);
      case None =>
          if after.items != db.items {
          assert Admits(db.items, after.items, NewItem(newId, task.id, task.availableTime, now));
        }
    }
  }

  lemma ScanShape(db: Db, at: Time, source: DramaTask, uuids: Scheduling.Uuids, now: Time)
    requires Keyed(db)
    ensures Shaped(db.items, Next(db, ScanSource(at, source, uuids)).items, now, false)
    ensures Keyed(Next(db, ScanSource(at, source, uuids)))
  {
    hide EnsureQueueItem, Scheduling.Upsert, RowsMove, Admits;
    Unmoved(db.items, now);
    Scheduling.UpsertIsKeyed(db, source, uuids);
    var upsert := Scheduling.Upsert(db.tasks, source, uuids);
    if upsert.Ok? {
      var scanned := db.(tasks := upsert.value.0);
      if EnsureQueueItem(scanned, upsert.value.1, uuids.itemId, at).Ok? {
        ScheduleShape(scanned, upsert.value.1, uuids.itemId, at, now);
      }
    }
  }

  /** Control and execution calls only move rows. */
  lemma CallsMoveRows(db: Db, step: Step, now: Time)
    requires Keyed(db)
    requires step.PauseItem? || step.ResumeItem? || step.CancelItem? || step.RetryItem? || step.ReviewItem?
          || step.StartItem? || step.FinishItem? || step.CompleteItem?
    ensures Keyed(Next(db, step)) && RowsMove(db.items, Next(db, step).items, now)
  {
    hide Stop, Resume, Retry, MarkManualReview, Start, Finish, Complete, RowsMove;
    Unmoved(db.items, now);
    match step
    case PauseItem(id, worker) => StopMoves(db, id, worker, Paused, TaskStatus.Running, now);
    case CancelItem(id, worker) => StopMoves(db, id, worker, QueueState.Cancelled, TaskStatus.Cancelled, now);
    case ResumeItem(id) => ResumeMoves(db, id, now);
    case RetryItem(id) => RetryMoves(db, id, now);
    case ReviewItem(id, worker) => ReviewMoves(db, id, worker, now);
    case StartItem(id) => StartMoves(db, id, now);
    case FinishItem(id, worker, e) => FinishMoves(db, id, worker, e, now);
    case CompleteItem(id, worker) => CompleteMoves(db, id, worker, now);
  }

  lemma DeleteShape(db: Db, taskId: string)
    requires Keyed(db) && Delete(db, taskId).Ok?
    ensures Drops(db.items, Delete(db, taskId).value.items, taskId) && Keyed(Delete(db, taskId).value)
  {
  }

  lemma DeletesWhenThere(db: Db, taskId: string)
    ensures Deletes(db, DeleteTask(taskId), taskId) <==> Delete(db, taskId).Ok?
  {
  }

  /** The step deletes a task that is there. */
  predicate Deletes(db: Db, step: Step, taskId: string) {
    step == DeleteTask(taskId) && taskId in db.tasks
  }

  /** Every step has one of the three shapes. */
  lemma StepShape(db: Db, clock: Time, step: Step)
    requires Keyed(db) && clock <= ClockAfter(clock, step)
    ensures if step.DeleteTask? && Deletes(db, step, step.taskId)
        then Drops(db.items, Next(db, step).items, step.taskId)
      else Shaped(db.items, Next(db, step).items, ClockAfter(clock, step), step.EnqueueTask?)
    ensures Keyed(Next(db, step))
  {
    hide Admit, Recover, Claim, Renew, Release, Enqueue, EnsureQueue, EnsureQueueItem, Delete, RowsMove, Admits, Drops;
    Unmoved(db.items, ClockAfter(clock, step));
    var now := ClockAfter(clock, step);
    match step
    case AdmitReady(_) => AdmitMoves(db.items, now);
    case RecoverExpired(_, maxAttempts) => RecoverMoves(db.items, now, maxAttempts);
    case ClaimNext(at, worker, leaseSeconds) => ClaimMoves(db.items, worker, leaseSeconds, at, now);
    case RenewLease(at, id, worker, leaseSeconds) => RenewMoves(db.items, id, worker, leaseSeconds, at, now);
    case ReleaseItem(id, worker) => ReleaseMoves(db.items, id, worker, now);
    case EnqueueTask(at, taskId, target, sole, newId) =>
      if Enqueue(db, taskId, target, sole, newId, at).Ok? {
        EnqueueShape(db, at, taskId, target, sole, newId, now);
      }
    case PrepareTask(at, taskId, newId) =>
      if EnsureQueue(db, taskId, newId, at).Ok? {
        PrepareShape(db, at, taskId, newId, now);
      }
    case ScanSource(at, source, uuids) => ScanShape(db, at, source, uuids, now);
    case StoreTask(task) => assert Next(db, step).items == db.items;
    case DeleteTask(taskId) =>
      if Delete(db, taskId).Ok? {
        DeleteShape(db, taskId);
      }
      DeletesWhenThere(db, taskId);
    case _ => CallsMoveRows(db, step, now);
  }

  // ---- moves of every step ----

  /** Every step moves every item along the table of legal moves, except that a manual enqueue revives a
      finished item; items only go with their task, none is handed to another task, and a new item waits. */
  lemma StepsFollowTheTable(db: Db, clock: Time, step: Step, id: string)
    requires Keyed(db) && clock <= ClockAfter(clock, step)
    ensures id in db.items ==> (id in Next(db, step).items <==> !Deletes(db, step, db.items[id].taskId))
    ensures id in db.items && id in Next(db, step).items ==>
      var before, after := db.items[id], Next(db, step).items[id];
         && after.taskId == before.taskId
         && (|| after.state == before.state
             || CanTransition(before.state, after.state)
             || (step.EnqueueTask? && !Unfinished(before.state) && after.state == QueueState.WaitingTime))
    ensures id in Next(db, step).items && id !in db.items ==> Next(db, step).items[id].state == QueueState.WaitingTime
  {
    StepShape(db, clock, step);
  }

  // ---- invariants of every run ----

  /** At most one unfinished item per task. */
  ghost predicate OneUnfinished(items: Items) {
    forall x, y :: x in items && y in items && x != y && items[x].taskId == items[y].taskId ==>
      !Unfinished(items[x].state) || !Unfinished(items[y].state)
  }

  ghost predicate ItemsInv(items: Items, clock: Time) {
    && OneUnfinished(items)
    && (forall id :: id in items ==> Owned(items[id]))
    && (forall id :: id in items ==> Due(items[id], clock))
  }

  ghost predicate Inv(db: Db, clock: Time) {
    Keyed(db) && ItemsInv(db.items, clock)
  }

  lemma MovingRowsKeepsInv(before: Items, after: Items, clock: Time, now: Time)
    requires ItemsInv(before, clock) && clock <= now && RowsMove(before, after, now)
    ensures ItemsInv(after, now)
  {
    forall id | id in before
      ensures after[id].taskId == before[id].taskId
      ensures Unfinished(after[id].state) ==> Unfinished(before[id].state)
      ensures Owned(after[id]) && Due(after[id], now)
    {
      assert RowMoves(before[id], after[id], now);
    }
  }

  lemma AdmittingKeepsInv(before: Items, after: Items, item: QueueItem, clock: Time, now: Time)
    requires ItemsInv(before, clock) && clock <= now && Admits(before, after, item)
    ensures ItemsInv(after, now)
  {
  }

  lemma DroppingKeepsInv(before: Items, after: Items, taskId: string, clock: Time)
    requires ItemsInv(before, clock) && Drops(before, after, taskId)
    ensures ItemsInv(after, clock)
  {
  }

  lemma StepKeepsInv(db: Db, clock: Time, step: Step)
    requires Inv(db, clock) && clock <= ClockAfter(clock, step)
    ensures Inv(Next(db, step), ClockAfter(clock, step))
  {
    var now, after := ClockAfter(clock, step), Next(db, step).items;
    StepShape(db, clock, step);
    if step.DeleteTask? && Deletes(db, step, step.taskId) {
      DroppingKeepsInv(db.items, after, step.taskId, clock);
    } else if RowsMove(db.items, after, now) {
      MovingRowsKeepsInv(db.items, after, clock, now);
    } else {
      var item :| Admits(db.items, after, item);
      AdmittingKeepsInv(db.items, after, item, clock, now);
    }
  }

  /** The calls of a run read times in order. */
  ghost predicate Chronological(clock: Time, steps: seq<Step>)
    decreases |steps|
  {
    steps == [] || (clock <= ClockAfter(clock, steps[0]) && Chronological(ClockAfter(clock, steps[0]), steps[1..]))
  }

  function FinalClock(clock: Time, steps: seq<Step>): Time
    decreases |steps|
  {
    if steps == [] then clock else FinalClock(ClockAfter(clock, steps[0]), steps[1..])
  }

  ghost function Run(db: Db, clock: Time, steps: seq<Step>): Db
    requires Keyed(db) && Chronological(clock, steps)
    decreases |steps|
  {
    if steps == [] then db
    else
      StepShape(db, clock, steps[0]);
      Run(Next(db, steps[0]), ClockAfter(clock, steps[0]), steps[1..])
  }

  /** Whatever the services are asked, in whatever order: one unfinished item per task, owners and leases
      exactly where work is held, and nothing released before its time. */
  lemma {:induction false} RunKeepsInv(db: Db, clock: Time, steps: seq<Step>)
    requires Inv(db, clock) && Chronological(clock, steps)
    ensures Inv(Run(db, clock, steps), FinalClock(clock, steps))
    decreases |steps|
  {
    if steps != [] {
      StepKeepsInv(db, clock, steps[0]);
      RunKeepsInv(Next(db, steps[0]), ClockAfter(clock, steps[0]), steps[1..]);
    }
  }

  lemma EveryReachableDatabase(clock: Time, steps: seq<Step>)
    requires Chronological(clock, steps)
    ensures Inv(Run(Db(map[], map[]), clock, steps), FinalClock(clock, steps))
  {
    RunKeepsInv(Db(map[], map[]), clock, steps);
  }

  // ---- termination of automatic runs ----

  /** Steps taken without an operator; recovery always with the same `maxAttempts`. */
  predicate Automatic(step: Step, maxAttempts: int) {
    match step
    case AdmitReady(_) | ClaimNext(_, _, _) | StartItem(_) | FinishItem(_, _, _) | CompleteItem(_, _)
       | RenewLease(_, _, _, _) | PrepareTask(_, _, _) | ScanSource(_, _, _) | StoreTask(_) => true
    case RecoverExpired(_, m) => m == maxAttempts
    case _ => false
  }

  /** Rounds of claim, start and recovery an item still has, counting the one it is in. */
  function RoundsLeft(item: QueueItem, maxAttempts: int): nat {
    if item.attemptCount < maxAttempts then maxAttempts + 1 - item.attemptCount else 1
  }

  /** How many more state changes automatic steps can make. */
  function MovesLeft(item: QueueItem, maxAttempts: int): nat {
    match item.state
    case WaitingTime => 3 * RoundsLeft(item, maxAttempts) + 1
    case Queued => 3 * RoundsLeft(item, maxAttempts)
    case Claimed => 3 * RoundsLeft(item, maxAttempts) - 1
    case Running => 3 * RoundsLeft(item, maxAttempts) - 2
    case _ => 0
  }

  /** The row stands still, or spends one of its moves. */
  predicate Spends(before: QueueItem, after: QueueItem, maxAttempts: int) {
    || (after.state == before.state && after.attemptCount == before.attemptCount)
    || MovesLeft(after, maxAttempts) < MovesLeft(before, maxAttempts)
  }

  ghost predicate AllSpend(before: Items, after: Items, maxAttempts: int) {
    forall id :: id in before ==> id in after && Spends(before[id], after[id], maxAttempts)
  }

  lemma OneRowSpends(items: Items, row: QueueItem, maxAttempts: int)
    requires row.id in items && Spends(items[row.id], row, maxAttempts)
    ensures AllSpend(items, items[row.id := row], maxAttempts)
  {
  }

  lemma CompleteSpends(db: Db, id: string, worker: string, maxAttempts: int)
    requires Keyed(db) && Complete(db, id, worker).Ok?
    ensures AllSpend(db.items, Complete(db, id, worker).value.items, maxAttempts)
  {
    OneRowSpends(db.items, Complete(db, id, worker).value.items[id], maxAttempts);
  }

  lemma FinishSpends(db: Db, id: string, worker: string, e: Execution, maxAttempts: int)
    requires Keyed(db) && Finish(db, id, worker, e).Ok?
    ensures AllSpend(db.items, Finish(db, id, worker, e).value.items, maxAttempts)
  {
    if OutcomeOf(e).status == OutCompleted {
      CompleteSpends(db, id, worker, maxAttempts);
    } else {
      OneRowSpends(db.items, Finish(db, id, worker, e).value.items[id], maxAttempts);
    }
  }

  lemma StartSpends(db: Db, id: string, maxAttempts: int)
    requires Keyed(db) && Start(db, id).Ok?
    ensures AllSpend(db.items, Start(db, id).value.items, maxAttempts)
  {
    OneRowSpends(db.items, Start(db, id).value.items[id], maxAttempts);
  }

  lemma ScheduleSpends(db: Db, task: DramaTask, newId: string, now: Time, maxAttempts: int)
    requires Keyed(db) && EnsureQueueItem(db, task, newId, now).Ok?
    ensures AllSpend(db.items, EnsureQueueItem(db, task, newId, now).value.0.items, maxAttempts)
  {
  }

  lemma AdmitSpends(items: Items, now: Time, maxAttempts: int)
    ensures AllSpend(items, Admit(items, now), maxAttempts)
  {
  }

  lemma ClaimSpends(items: Items, worker: string, leaseSeconds: Time, now: Time, maxAttempts: int)
    requires KeyedItems(items)
    ensures AllSpend(items, Claim(items, worker, leaseSeconds, now), maxAttempts)
  {
  }

  lemma RenewSpends(items: Items, id: string, worker: string, leaseSeconds: Time, now: Time, maxAttempts: int)
    ensures AllSpend(items, Renew(items, id, worker, leaseSeconds, now), maxAttempts)
  {
  }

  lemma RecoverSpends(items: Items, now: Time, maxAttempts: int)
    ensures AllSpend(items, Recover(items, now, maxAttempts), maxAttempts)
  {
    forall id | id in items && Expired(items[id], now)
      ensures Spends(items[id], Recovered(items[id], maxAttempts), maxAttempts)
    {
    }
  }

  lemma PrepareSpends(db: Db, taskId: string, newId: string, now: Time, maxAttempts: int)
    requires Keyed(db) && EnsureQueue(db, taskId, newId, now).Ok?
    ensures AllSpend(db.items, EnsureQueue(db, taskId, newId, now).value.items, maxAttempts)
  {
  }

  lemma ScanSpends(db: Db, at: Time, source: DramaTask, uuids: Scheduling.Uuids, maxAttempts: int)
    requires Keyed(db)
    ensures AllSpend(db.items, Next(db, ScanSource(at, source, uuids)).items, maxAttempts)
  {
    hide EnsureQueueItem, Scheduling.Upsert;
    Scheduling.UpsertIsKeyed(db, source, uuids);
    var upsert := Scheduling.Upsert(db.tasks, source, uuids);
    if upsert.Ok? {
      var scanned := db.(tasks := upsert.value.0);
      if EnsureQueueItem(scanned, upsert.value.1, uuids.itemId, at).Ok? {
        ScheduleSpends(scanned, upsert.value.1, uuids.itemId, at, maxAttempts);
      }
    }
  }

  lemma AutomaticStepSpends(db: Db, step: Step, maxAttempts: int)
    requires Keyed(db) && Automatic(step, maxAttempts)
    ensures AllSpend(db.items, Next(db, step).items, maxAttempts)
  {
    hide Start, Finish, Complete, Admit, Recover, Claim, Renew, EnsureQueue, EnsureQueueItem, Spends;
    assert AllSpend(db.items, db.items, maxAttempts) by { StandingStill(db.items, maxAttempts); }
    match step
    case AdmitReady(now) => AdmitSpends(db.items, now, maxAttempts);
    case ClaimNext(now, worker, leaseSeconds) => ClaimSpends(db.items, worker, leaseSeconds, now, maxAttempts);
    case RenewLease(now, id, worker, leaseSeconds) => RenewSpends(db.items, id, worker, leaseSeconds, now, maxAttempts);
    case RecoverExpired(now, _) => RecoverSpends(db.items, now, maxAttempts);
    case ScanSource(at, source, uuids) => ScanSpends(db, at, source, uuids, maxAttempts);
    case StoreTask(task) => assert Next(db, step).items == db.items;
    case PrepareTask(now, taskId, newId) =>
      if EnsureQueue(db, taskId, newId, now).Ok? {
        PrepareSpends(db, taskId, newId, now, maxAttempts);
      }
    case StartItem(id) =>
      if Start(db, id).Ok? {
        StartSpends(db, id, maxAttempts);
      }
    case FinishItem(id, worker, e) =>
      if Finish(db, id, worker, e).Ok? {
        FinishSpends(db, id, worker, e, maxAttempts);
      }
    case CompleteItem(id, worker) =>
      if Complete(db, id, worker).Ok? {
        CompleteSpends(db, id, worker, maxAttempts);
      }
  }

  lemma StandingStill(items: Items, maxAttempts: int)
    ensures AllSpend(items, items, maxAttempts)
  {
  }

  /** State changes of one item over a run, up to its deletion. */
  ghost function Changes(db: Db, clock: Time, steps: seq<Step>, id: string): nat
    requires Keyed(db) && Chronological(clock, steps) && id in db.items
    decreases |steps|
  {
    if steps == [] then 0
    else
      StepsFollowTheTable(db, clock, steps[0], id);
      StepShape(db, clock, steps[0]);
      var next := Next(db, steps[0]);
      if id !in next.items then 0
      else
        var change := if next.items[id].state != db.items[id].state then 1 else 0;
        change + Changes(next, ClockAfter(clock, steps[0]), steps[1..], id)
  }

  /** Automatic runs terminate: however long the run, an item's state changes are bounded. */
  lemma {:induction false} AutomaticRunsTerminate(db: Db, clock: Time, steps: seq<Step>, maxAttempts: int, id: string)
    requires Keyed(db) && Chronological(clock, steps) && id in db.items
    requires forall step :: step in steps ==> Automatic(step, maxAttempts)
    ensures Changes(db, clock, steps, id) <= MovesLeft(db.items[id], maxAttempts)
    ensures db.items[id].attemptCount == 0 <= maxAttempts ==> Changes(db, clock, steps, id) <= 1 + 3 * (maxAttempts + 1)
    decreases |steps|
  {
    hide Next;
    if steps != [] {
      StepShape(db, clock, steps[0]);
      AutomaticStepSpends(db, steps[0], maxAttempts);
      AutomaticRunsTerminate(Next(db, steps[0]), ClockAfter(clock, steps[0]), steps[1..], maxAttempts, id);
    }
  }
}
