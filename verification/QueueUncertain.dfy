/**
 * Items whose result is uncertain: a submission that may or may not have happened outside must not be made again
 * before someone has looked. The module proves what protects such an item over every run, and what does not.
 */
module QueueUncertain {
  import opened Basics
  import opened QueueStates
  import opened Records
  import opened QueueTable
  import opened QueueOperations
  import opened QueueProtocol
  import Scheduling

  predicate Uncertain(item: QueueItem) {
    item.failureCode == Some(RESULT_UNCERTAIN) && !item.retrySafe
  }

  /** Stopped with an uncertain result. */
  predicate Blocked(item: QueueItem) {
    Uncertain(item) && NeedsRetry(item.state)
  }

  /** Blocked, or cancelled after that: not waiting, queued or in anyone's hands. */
  predicate Parked(item: QueueItem) {
    Blocked(item) || item.state == QueueState.Cancelled
  }

  // ---- the guards of the steps that touch such an item ----

  predicate Cancels(step: Step, id: string) {
    step.CancelItem? && step.id == id
  }

  /** The cancellation of an item in review: no condition on who asks. */
  predicate CancelsFromReview(db: Db, step: Step, id: string) {
    Cancels(step, id) && id in db.items && db.items[id].state == QueueState.ManualReview
  }

  /** The manual enqueue of the item's task passes: the task is there and its match settled, it has no unfinished
      item, and this is its newest. */
  ghost predicate Revives(db: Db, step: Step, id: string)
    requires Keyed(db)
  {
    && step.EnqueueTask? && id in db.items && step.taskId == db.items[id].taskId && step.taskId in db.tasks
    && !MatchOpen(db.tasks[step.taskId], step.soleCandidate)
    && ActiveRow(db.items, step.taskId).None? && NewestRow(db.items, step.taskId) == Some(db.items[id])
  }

  predicate MatchOpen(task: DramaTask, soleCandidate: bool) {
    task.linkStatus == DramaMismatch && !task.matchConfirmed && !soleCandidate
  }

  /** The step deletes the item's task. */
  predicate DeletesItem(db: Db, step: Step, id: string) {
    id in db.items && Deletes(db, step, db.items[id].taskId)
  }

  // ---- one step ----

  /** The row as a step on it leaves it. */
  function Written(item: QueueItem, step: Step): QueueItem {
    if Cancels(step, item.id) && item.state == QueueState.ManualReview then Unclaimed(item, QueueState.Cancelled)
        else item
  }

  lemma ControlsLeave(db: Db, step: Step, id: string)
    requires Keyed(db) && id in db.items && Parked(db.items[id])
    requires step.PauseItem? || step.CancelItem?
    ensures var after := Next(db, step).items; id in after && after[id] == Written(db.items[id], step)
  {
  }

  lemma ResumingLeaves(db: Db, step: Step, id: string)
    requires Keyed(db) && id in db.items && Parked(db.items[id])
    requires step.ResumeItem? || step.RetryItem? || step.ReviewItem?
    ensures var after := Next(db, step).items; id in after && after[id] == db.items[id]
  {
  }

  lemma ExecutionLeaves(db: Db, step: Step, id: string)
    requires Keyed(db) && id in db.items && Parked(db.items[id])
    requires step.StartItem? || step.FinishItem? || step.CompleteItem?
    ensures var after := Next(db, step).items; id in after && after[id] == db.items[id]
  {
  }

  /** A manual enqueue revives the newest item of a task without an unfinished one, and leaves other parked items. */
  lemma ReadmissionLeaves(db: Db, task: DramaTask, newId: string, now: Time, id: string)
    requires Keyed(db) && id in db.items && Parked(db.items[id])
    ensures Readmit(db, task, newId, now).Ok? ==>
      var after := Readmit(db, task, newId, now).value.items;
      && id in after
      && after[id] ==
        if ActiveRow(db.items, task.id).None? && NewestRow(db.items, task.id) == Some(db.items[id])
        then Revived(db.items[id], task.availableTime) else db.items[id]
    ensures NewestRow(db.items, task.id) == Some(db.items[id]) && ActiveRow(db.items, task.id).None? ==>
      Readmit(db, task, newId, now).Ok? && !Blocked(db.items[id])
  {
    if ActiveRow(db.items, task.id).None? {
      assert !Unfinished(db.items[id].state) || db.items[id].taskId != task.id;
    }
  }

  lemma ScanLeaves(db: Db, at: Time, source: DramaTask, uuids: Scheduling.Uuids, id: string)
    requires Keyed(db) && id in db.items && db.items[id].state != QueueState.WaitingTime
    ensures var after := Next(db, ScanSource(at, source, uuids)).items; id in after && after[id] == db.items[id]
  {
    hide Scheduling.Upsert;
    Scheduling.UpsertIsKeyed(db, source, uuids);
  }

  lemma PrepareLeaves(db: Db, now: Time, taskId: string, newId: string, id: string)
    requires Keyed(db) && id in db.items
    ensures var after := Next(db, PrepareTask(now, taskId, newId)).items; id in after && after[id] == db.items[id]
  {
  }

  /** Calls on the whole table touch only waiting, queued and held items. */
  lemma SweepsLeave(db: Db, step: Step, id: string)
    requires Keyed(db) && id in db.items
    requires !InFlight(db.items[id].state)
    requires db.items[id].state != QueueState.WaitingTime && db.items[id].state != Queued
    requires step.AdmitReady? || step.ClaimNext? || step.RenewLease? || step.ReleaseItem? || step.RecoverExpired?
    ensures var after := Next(db, step).items; id in after && after[id] == db.items[id]
  {
  }

  /** A revival takes a cancelled item; it waits again and keeps its failure code. */
  lemma EnqueueLeaves(db: Db, step: Step, id: string)
    requires Keyed(db) && id in db.items && Parked(db.items[id]) && step.EnqueueTask?
    ensures var (before, after) := (db.items[id], Next(db, step).items);
      && id in after
      && (if Revives(db, step, id) then
            before.state == QueueState.Cancelled && RevivedAs(before, after[id])
          else after[id] == before)
  {
    hide Readmit, Rearmed, Keyed, Parked, Blocked, ActiveRow, NewestRow;
    var EnqueueTask(at, taskId, target, sole, newId) := step;
    if taskId in db.tasks && !MatchOpen(db.tasks[taskId], sole) {
      var task := Rearmed(db.tasks[taskId], target);
      RearmingKeepsKeys(db, taskId, target);
      var rearmed := db.(tasks := db.tasks[taskId := task]);
      ReadmissionLeaves(rearmed, task, newId, at, id);
      NewestIsOfTask(db, taskId);
      ParkedIsBlockedOrCancelled(db.items[id]);
    }
  }

  lemma ParkedIsBlockedOrCancelled(item: QueueItem)
    ensures Parked(item) <==> Blocked(item) || item.state == QueueState.Cancelled
  {
  }

  lemma NewestIsOfTask(db: Db, taskId: string)
    requires Keyed(db)
    ensures NewestRow(db.items, taskId).Some? ==> NewestRow(db.items, taskId).value.taskId == taskId
  {
  }

  predicate RevivedAs(before: QueueItem, after: QueueItem) {
    after.state == QueueState.WaitingTime && (Uncertain(before) ==> Uncertain(after))
  }

  lemma DeletionLeaves(db: Db, taskId: string, id: string)
    requires Keyed(db) && id in db.items
    ensures var after := Next(db, DeleteTask(taskId)).items;
      && (id in after <==> !DeletesItem(db, DeleteTask(taskId), id))
      && (id in after ==> after[id] == db.items[id])
  {
  }

  /**
   * Every step exactly: the item goes with its task; a blocked one is cancelled from review and otherwise stays as it
   * is; a cancelled one is revived when the guard of the manual enqueue is met and otherwise stays as it is.
   */
  lemma ParkedStep(db: Db, step: Step, id: string)
    requires Keyed(db) && id in db.items && Parked(db.items[id])
    ensures var (before, after) := (db.items[id], Next(db, step).items);
      && (id in after <==> !DeletesItem(db, step, id))
      && (Blocked(before) && id in after ==> after[id] == Written(before, step) && !Revives(db, step, id))
      && (before.state == QueueState.Cancelled && id in after ==>
        if Revives(db, step, id) then RevivedAs(before, after[id]) else after[id] == before)
  {
    hide Admit, Recover, Claim, Renew, Release, Enqueue, EnsureQueue, Scheduling.SyncSource, Revives, RevivedAs;
    hide Start, Finish, Complete, Stop, Resume, Retry, MarkManualReview, Delete;
    OnlyEnqueueRevives(db, step, id);
    match step
    case EnqueueTask(_, _, _, _, _) => EnqueueLeaves(db, step, id);
    case ScanSource(at, source, uuids) => ScanLeaves(db, at, source, uuids, id);
    case PrepareTask(now, taskId, newId) => PrepareLeaves(db, now, taskId, newId, id);
    case AdmitReady(_) | ClaimNext(_, _, _) | RenewLease(_, _, _, _) | ReleaseItem(_, _) | RecoverExpired(_, _) =>
      SweepsLeave(db, step, id);
    case StartItem(_) | FinishItem(_, _, _) | CompleteItem(_, _) => ExecutionLeaves(db, step, id);
    case ResumeItem(_) | RetryItem(_) | ReviewItem(_, _) => ResumingLeaves(db, step, id);
    case StoreTask(task) => assert Next(db, step).items == db.items;
    case DeleteTask(taskId) => DeletionLeaves(db, taskId, id);
    case _ => ControlsLeave(db, step, id);
  }

  lemma OnlyEnqueueRevives(db: Db, step: Step, id: string)
    requires Keyed(db)
    ensures Revives(db, step, id) ==> step.EnqueueTask?
  {
  }

  // ---- any run ----

  lemma {:induction false} PrefixIsChronological(db: Db, clock: Time, steps: seq<Step>, k: nat)
    requires Keyed(db) && Chronological(clock, steps) && k <= |steps|
    ensures Chronological(clock, steps[..k]) && Keyed(Run(db, clock, steps[..k]))
    decreases k
  {
    if k > 0 {
      StepShape(db, clock, steps[0]);
      PrefixIsChronological(Next(db, steps[0]), ClockAfter(clock, steps[0]), steps[1..], k - 1);
      assert steps[..k][1..] == steps[1..][..k - 1];
    }
  }

  /** The database after the first `k` steps. */
  ghost function After(db: Db, clock: Time, steps: seq<Step>, k: nat): (after: Db)
    requires Keyed(db) && Chronological(clock, steps) && k <= |steps|
    ensures Keyed(after)
  {
    PrefixIsChronological(db, clock, steps, k);
    Run(db, clock, steps[..k])
  }

  lemma AfterTheFirst(db: Db, clock: Time, steps: seq<Step>, k: nat)
    requires Keyed(db) && Chronological(clock, steps) && k < |steps|
    ensures Keyed(Next(db, steps[0]))
    ensures After(db, clock, steps, k + 1)
      == After(Next(db, steps[0]), ClockAfter(clock, steps[0]), steps[1..], k)
    ensures After(db, clock, steps, 0) == db
  {
    hide Next;
    StepShape(db, clock, steps[0]);
    PrefixIsChronological(db, clock, steps, k + 1);
    assert steps[..k + 1][1..] == steps[1..][..k];
  }

  lemma AfterOneMore(db: Db, clock: Time, steps: seq<Step>, k: nat)
    requires Keyed(db) && Chronological(clock, steps) && k < |steps|
    ensures After(db, clock, steps, k + 1) == Next(After(db, clock, steps, k), steps[k])
    decreases k
  {
    hide Next, After;
    AfterTheFirst(db, clock, steps, k);
    if k > 0 {
      AfterTheFirst(db, clock, steps, k - 1);
      AfterOneMore(Next(db, steps[0]), ClockAfter(clock, steps[0]), steps[1..], k - 1);
    } else {
      StepShape(db, clock, steps[0]);
      NothingAfter(Next(db, steps[0]), ClockAfter(clock, steps[0]), steps[1..]);
    }
  }

  lemma NothingAfter(db: Db, clock: Time, steps: seq<Step>)
    requires Keyed(db) && Chronological(clock, steps)
    ensures After(db, clock, steps, 0) == db
  {
  }

  /** The row as it was, or as a cancellation left it. */
  predicate Untouched(item: QueueItem, row: QueueItem) {
    row == item || (item.state == QueueState.ManualReview && row == Unclaimed(item, QueueState.Cancelled))
  }

  /** At the `k`-th moment of the run the row is there and nobody has taken it up. */
  ghost predicate KeptAt(db: Db, clock: Time, steps: seq<Step>, id: string, k: nat)
    requires Keyed(db) && Chronological(clock, steps) && k <= |steps| && id in db.items
  {
    var items := After(db, clock, steps, k).items;
    id in items && Untouched(db.items[id], items[id])
  }

  ghost predicate CancelledAt(db: Db, clock: Time, steps: seq<Step>, id: string, i: nat)
    requires Keyed(db) && Chronological(clock, steps) && i < |steps|
  {
    CancelsFromReview(After(db, clock, steps, i), steps[i], id)
  }

  ghost predicate RevivedAt(db: Db, clock: Time, steps: seq<Step>, id: string, j: nat)
    requires Keyed(db) && Chronological(clock, steps) && j < |steps|
  {
    Revives(After(db, clock, steps, j), steps[j], id)
  }

  ghost predicate DeletedAt(db: Db, clock: Time, steps: seq<Step>, id: string, j: nat)
    requires Keyed(db) && Chronological(clock, steps) && j < |steps|
  {
    DeletesItem(After(db, clock, steps, j), steps[j], id)
  }

  /** The task was deleted, or the item was cancelled from review and later revived by hand. */
  ghost predicate Released(db: Db, clock: Time, steps: seq<Step>, id: string)
    requires Keyed(db) && Chronological(clock, steps)
  {
    || (exists j :: 0 <= j < |steps| && DeletedAt(db, clock, steps, id, j))
    || (exists i, j :: 0 <= i < j < |steps|
          && CancelledAt(db, clock, steps, id, i) && RevivedAt(db, clock, steps, id, j))
  }

  /** What the row of a blocked item may have become keeps the item parked. */
  lemma UntouchedIsParked(item: QueueItem, row: QueueItem)
    requires Blocked(item) && Untouched(item, row)
    ensures Parked(row) && Uncertain(row) && row.id == item.id && row.taskId == item.taskId
  {
  }

  /** From one moment to the next: kept on unless deleted or, once cancelled, revived. */
  lemma KeptOneMore(db: Db, clock: Time, steps: seq<Step>, id: string, k: nat)
    requires Keyed(db) && Chronological(clock, steps) && k < |steps| && id in db.items && Blocked(db.items[id])
    requires KeptAt(db, clock, steps, id, k)
    ensures KeptAt(db, clock, steps, id, k + 1) <==>
      !DeletedAt(db, clock, steps, id, k) && !RevivedAt(db, clock, steps, id, k)
    ensures RevivedAt(db, clock, steps, id, k) ==> After(db, clock, steps, k).items[id] != db.items[id]
    ensures (&& KeptAt(db, clock, steps, id, k + 1) && After(db, clock, steps, k).items[id] == db.items[id]
             && After(db, clock, steps, k + 1).items[id] != db.items[id]) ==> CancelledAt(db, clock, steps, id, k)
  {
    hide After, Next, Revives, Blocked, Uncertain;
    OnlyEnqueueRevives(After(db, clock, steps, k), steps[k], id);
    var before := After(db, clock, steps, k);
    UntouchedIsParked(db.items[id], before.items[id]);
    AfterOneMore(db, clock, steps, k);
    ParkedStep(before, steps[k], id);
    BlockedOrCancelled(db.items[id], before.items[id]);
  }

  lemma BlockedOrCancelled(item: QueueItem, row: QueueItem)
    requires Blocked(item) && Untouched(item, row)
    ensures row == item ==> Blocked(row) && row.state != QueueState.Cancelled
    ensures row != item ==> row.state == QueueState.Cancelled && item.state == QueueState.ManualReview
    ensures item.state == QueueState.ManualReview ==> Unclaimed(item, QueueState.Cancelled) != item
  {
  }

  lemma {:induction false} KeptWhileNotReleased(db: Db, clock: Time, steps: seq<Step>, id: string, k: nat)
    requires Keyed(db) && Chronological(clock, steps) && k <= |steps| && id in db.items && Blocked(db.items[id])
    requires !Released(db, clock, steps, id)
    ensures KeptAt(db, clock, steps, id, k)
    ensures After(db, clock, steps, k).items[id] != db.items[id] ==>
      exists i :: 0 <= i < k && CancelledAt(db, clock, steps, id, i)
    decreases k
  {
    hide After, Blocked, CancelledAt, RevivedAt, DeletedAt;
    if k == 0 {
      NothingAfter(db, clock, steps);
    } else {
      KeptWhileNotReleased(db, clock, steps, id, k - 1);
      KeptOneMore(db, clock, steps, id, k - 1);
    }
  }

  /**
   * Over every run of calls, an item blocked by an uncertain result keeps its row, as it was or cancelled, at every
   * moment, exactly when its task is not deleted and no cancellation from review is followed by a manual enqueue
   * whose guard is met. So otherwise it is never queued, claimed or run again.
   */
  lemma KeptExactlyUntilReleased(db: Db, clock: Time, steps: seq<Step>, id: string)
    requires Keyed(db) && Chronological(clock, steps) && id in db.items && Blocked(db.items[id])
    ensures (forall k :: 0 <= k <= |steps| ==> KeptAt(db, clock, steps, id, k)) <==> !Released(db, clock, steps, id)
  {
    hide After, Blocked, KeptAt, CancelledAt, RevivedAt, DeletedAt;
    if !Released(db, clock, steps, id) {
      forall k | 0 <= k <= |steps| ensures KeptAt(db, clock, steps, id, k) {
        KeptWhileNotReleased(db, clock, steps, id, k);
      }
    } else {
      var j :| 0 <= j < |steps| && (DeletedAt(db, clock, steps, id, j) || RevivedAt(db, clock, steps, id, j));
      if KeptAt(db, clock, steps, id, j) {
        KeptOneMore(db, clock, steps, id, j);
      }
    }
  }

  ghost predicate SameAt(db: Db, clock: Time, steps: seq<Step>, id: string, k: nat)
    requires Keyed(db) && Chronological(clock, steps) && k <= |steps| && id in db.items
  {
    var items := After(db, clock, steps, k).items;
    id in items && items[id] == db.items[id]
  }

  lemma {:induction false} FailedStays(db: Db, clock: Time, steps: seq<Step>, id: string, k: nat)
    requires Keyed(db) && Chronological(clock, steps) && k <= |steps| && id in db.items
    requires Blocked(db.items[id]) && db.items[id].state != QueueState.ManualReview
    requires forall j :: 0 <= j < k ==> !DeletedAt(db, clock, steps, id, j)
    ensures SameAt(db, clock, steps, id, k)
    decreases k
  {
    hide After, Blocked, RevivedAt, DeletedAt;
    if k == 0 {
      NothingAfter(db, clock, steps);
    } else {
      FailedStays(db, clock, steps, id, k - 1);
      KeptOneMore(db, clock, steps, id, k - 1);
    }
  }

  /** One that failed, or waits for a retry, cannot even be cancelled: only the deletion of its task touches its row. */
  lemma FailedIsNeverReleased(db: Db, clock: Time, steps: seq<Step>, id: string)
    requires Keyed(db) && Chronological(clock, steps) && id in db.items
    requires Blocked(db.items[id]) && db.items[id].state != QueueState.ManualReview
    ensures (forall k :: 0 <= k <= |steps| ==> SameAt(db, clock, steps, id, k))
      <==> (forall j :: 0 <= j < |steps| ==> !DeletedAt(db, clock, steps, id, j))
  {
    hide After, Blocked, RevivedAt, DeletedAt;
    if j :| 0 <= j < |steps| && DeletedAt(db, clock, steps, id, j) {
      if SameAt(db, clock, steps, id, j) {
        KeptOneMore(db, clock, steps, id, j);
        assert !SameAt(db, clock, steps, id, j + 1);
      }
    } else {
      forall k | 0 <= k <= |steps| ensures SameAt(db, clock, steps, id, k) {
        FailedStays(db, clock, steps, id, k);
      }
    }
  }

  // ---- the two ways around ----

  /** An item its worker is executing. */
  function Submitting(): QueueItem {
    QueueItem("q", "t", QueueState.Running, 0, 0.0, Some("w"), Some(60.0), 0, None, None, false, 0.0)
  }

  /** The executor reports that the submission may or may not have happened. */
  function Uncertainty(): Execution {
    Returned(ExecutionOutcome(OutManualReview, None, [], Some(RESULT_UNCERTAIN), false))
  }

  /** As its worker leaves it: in review, with claim and lease. */
  function Submitted(): QueueItem {
    Submitting().(state := QueueState.ManualReview, failureCode := Some(RESULT_UNCERTAIN))
  }

  function ItsTask(): DramaTask {
    DramaTask("t", "key", None, "drama", "", 0.0, None, TaskStatus.Running, map[], map[], Validated,
      LinksReady, LinksReady, "", map[], false)
  }

  /** The tables with the one task and its one item. */
  ghost predicate Holds(db: Db, status: TaskStatus, item: QueueItem) {
    db.tasks == map["t" := ItsTask().(status := status)] && db.items == map["q" := item]
  }

  lemma Finishing(db: Db)
    requires Holds(db, TaskStatus.Running, Submitting())
    ensures Keyed(db)
    ensures Holds(Next(db, FinishItem("q", "w", Uncertainty())), TaskStatus.ManualReview, Submitted())
  {
    assert Keyed(db);
  }

  lemma Cancelling(db: Db)
    requires Keyed(db) && Holds(db, TaskStatus.ManualReview, Submitted())
    ensures Holds(Next(db, CancelItem("q", "w")), TaskStatus.Cancelled, Unclaimed(Submitted(), QueueState.Cancelled))
  {
  }

  lemma Reviving(db: Db)
    requires Keyed(db) && Holds(db, TaskStatus.Cancelled, Unclaimed(Submitted(), QueueState.Cancelled))
    ensures Holds(
      Next(db, EnqueueTask(0.0, "t", LinksReady, false, "n")), Waiting, Unclaimed(Submitted(), QueueState.WaitingTime))
  {
    var task := Rearmed(db.tasks["t"], LinksReady);
    assert task == ItsTask().(status := Waiting);
    assert ActiveRow(db.items, "t").None?;
    assert db.items["q"].taskId == "t";
    assert NewestRow(db.items, "t") == Some(db.items["q"]);
  }

  lemma Admitting(db: Db)
    requires Keyed(db) && Holds(db, Waiting, Unclaimed(Submitted(), QueueState.WaitingTime))
    ensures Holds(Next(db, AdmitReady(0.0)), Waiting, Unclaimed(Submitted(), Queued))
  {
  }

  lemma Claiming(db: Db)
    requires Keyed(db) && Holds(db, Waiting, Unclaimed(Submitted(), Queued))
    ensures Holds(Next(db, ClaimNext(0.0, "w", 60.0)), Waiting, ClaimedBy(Submitted(), "w", 60.0, 0.0))
  {
    assert db.items["q"].state == Queued;
    assert NextClaim(db.items).Some?;
  }

  lemma RunOneStep(db: Db, step: Step, rest: seq<Step>)
    requires Keyed(db) && ClockAfter(0.0, step) == 0.0 && Chronological(0.0, rest)
    ensures Chronological(0.0, [step] + rest) && Keyed(Next(db, step))
    ensures Run(db, 0.0, [step] + rest) == Run(Next(db, step), 0.0, rest)
  {
    hide Next;
    StepShape(db, 0.0, step);
    assert ([step] + rest)[1..] == rest;
  }

  lemma NoSteps(db: Db)
    ensures Chronological(0.0, [])
    ensures Keyed(db) ==> Run(db, 0.0, []) == db
  {
  }

  /** Enqueued by hand, released and claimed. */
  function Reclaim(): seq<Step> {
    [EnqueueTask(0.0, "t", LinksReady, false, "n")] + ([AdmitReady(0.0)] + ([ClaimNext(0.0, "w", 60.0)] + []))
  }

  lemma ReclaimsCancelled(db: Db)
    requires Keyed(db) && Holds(db, TaskStatus.Cancelled, Unclaimed(Submitted(), QueueState.Cancelled))
    ensures Chronological(0.0, Reclaim())
    ensures Holds(Run(db, 0.0, Reclaim()), Waiting, ClaimedBy(Submitted(), "w", 60.0, 0.0))
  {
    hide Next, Keyed, Run, Chronological, Holds;
    NoSteps(db);
    var second := EnqueueTask(0.0, "t", LinksReady, false, "n");
    var third, fourth := AdmitReady(0.0), ClaimNext(0.0, "w", 60.0);
    Reviving(db);
    RunOneStep(db, second, []);
    var revived := Next(db, second);
    Admitting(revived);
    RunOneStep(revived, third, []);
    var admitted := Next(revived, third);
    Claiming(admitted);
    RunOneStep(admitted, fourth, []);
    NoSteps(Next(admitted, fourth));
    RunOneStep(revived, third, [fourth] + []);
    RunOneStep(db, second, [third] + ([fourth] + []));
  }

  /**
   * The worker's submission ends uncertain; cancelled, enqueued by hand, released and claimed, the item is in a
   * worker's hands again with its result still uncertain.
   */
  lemma UncertainItemIsClaimedAgain()
    ensures var db := Db(map["t" := ItsTask()], map["q" := Submitting()]);
      var finish, cancel := FinishItem("q", "w", Uncertainty()), CancelItem("q", "w");
      && Keyed(db) && Keyed(Next(db, finish)) && Blocked(Next(db, finish).items["q"])
      && Chronological(0.0, [finish] + ([cancel] + Reclaim()))
      && Run(db, 0.0, [finish] + ([cancel] + Reclaim())).items == map["q" := ClaimedBy(Submitted(), "w", 60.0, 0.0)]
      && Uncertain(ClaimedBy(Submitted(), "w", 60.0, 0.0))
  {
    hide Next, Keyed, Run, Chronological, Reclaim;
    var db := Db(map["t" := ItsTask()], map["q" := Submitting()]);
    var finish, cancel := FinishItem("q", "w", Uncertainty()), CancelItem("q", "w");
    NoSteps(db);
    Finishing(db);
    RunOneStep(db, finish, []);
    var finished := Next(db, finish);
    Cancelling(finished);
    RunOneStep(finished, cancel, []);
    ReclaimsCancelled(Next(finished, cancel));
    RunOneStep(finished, cancel, Reclaim());
    RunOneStep(db, finish, [cancel] + Reclaim());
  }

  /** The source row of the task, as a scan fetches it. */
  function ItsSource(): DramaTask {
    ItsTask().(id := "row", status := Waiting, linkStatus := NotStarted)
  }

  lemma Deleting(db: Db)
    requires Holds(db, TaskStatus.ManualReview, Submitted())
    ensures Keyed(db) && Next(db, DeleteTask("t")) == Db(map[], map[])
  {
    assert Keyed(db);
  }

  /** Deleting the task removes the row, and the next scan gives the same source row a new task and a new item. */
  lemma DeletedTaskIsScannedAnew()
    ensures var db := Db(map["t" := ItsTask().(status := TaskStatus.ManualReview)], map["q" := Submitted()]);
      var scan := ScanSource(0.0, ItsSource(), Scheduling.Uuids("t2", "q2"));
      && Keyed(db) && Blocked(db.items["q"]) && Keyed(Next(db, DeleteTask("t")))
      && var after := Next(Next(db, DeleteTask("t")), scan);
         && after.items == map["q2" := NewItem("q2", "t2", 0.0, 0.0)]
         && after.tasks.Keys == {"t2"} && after.tasks["t2"].sourceKey == ItsTask().sourceKey
  {
    var db := Db(map["t" := ItsTask().(status := TaskStatus.ManualReview)], map["q" := Submitted()]);
    Deleting(db);
    ScanningNothing(Db(map[], map[]));
  }

  lemma ScanningNothing(db: Db)
    requires db == Db(map[], map[])
    ensures Keyed(db)
    ensures var after := Next(db, ScanSource(0.0, ItsSource(), Scheduling.Uuids("t2", "q2")));
      && after.items == map["q2" := NewItem("q2", "t2", 0.0, 0.0)]
      && after.tasks == map["t2" := Scheduling.NewTask(ItsSource(), "t2")]
  {
    assert Keyed(db);
    assert Scheduling.WithKey(db.tasks, "key") == {} && Scheduling.InSlot(db.tasks, ItsSource()) == {};
    var task := Scheduling.NewTask(ItsSource(), "t2");
    assert Scheduling.Upsert(db.tasks, ItsSource(), Scheduling.Uuids("t2", "q2"))
        == Ok((map["t2" := task], task, true));
  }
}
