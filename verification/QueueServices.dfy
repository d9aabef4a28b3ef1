/**
 * The services as they run: methods that read and update the rows of one database session in place.
 * Each is proved to perform the operation of the same name on the database value.
 */
module QueueServices {
  import opened Basics
  import opened QueueStates
  import opened Records
  import opened QueueTable
  import opened Sorting
  import Ops = QueueOperations
  import opened Scheduling

  /** The newest-first listing of a task's rows picks what `ORDER BY ... LIMIT 1` would. */
  lemma FirstOfListing(items: Items, listing: seq<QueueItem>, rows: set<QueueItem>, first: QueueItem, k: nat)
    requires StoredIn(rows, items) && rows <= Members(listing)
    requires Distinct(listing) && InOrder(listing, Newer)
    requires k < |listing| && listing[k] == first && first in rows
    requires forall j :: 0 <= j < k ==> listing[j] !in rows
    ensures Selects(rows, Newer, Some(first))
  {
    NewerIsStrictTotal(rows);
    forall y | y in rows && y != first ensures Newer(first, y) {
      assert y in Members(listing);
      var j :| 0 <= j < |listing| && listing[j] == y;
    }
  }

  /** Inserting a row keeps a listing sorted and complete. */
  lemma InsertRow(items: Items, rows: set<QueueItem>, listing: seq<QueueItem>, row: QueueItem)
    requires StoredIn(rows, items) && Members(listing) <= rows && row in rows && row !in Members(listing)
    requires Distinct(listing) && InOrder(listing, Newer)
    ensures Members(Insert(row, listing, Newer)) == Members(listing) + {row}
    ensures Distinct(Insert(row, listing, Newer)) && InOrder(Insert(row, listing, Newer), Newer)
  {
    NewerIsStrictTotal(Members(listing) + {row});
    StrictTotalIsKeyOrder(Members(listing) + {row}, Newer);
    InsertKeepsOrder(row, listing, Newer);
    InsertMembers(row, listing, Newer);
  }

  /** Copies of the waiting items whose time has come, queued. */
  function ReadyCopies(items: seq<QueueItem>, now: Time): seq<QueueItem> {
    if items == [] then []
    else
      var last := items[|items| - 1];
      ReadyCopies(items[..|items| - 1], now) + (if Ops.ReadyToAdmit(last, now) then [last.(state := Queued)] else [])
  }

  lemma {:induction false} ReadyCopiesMembers(items: seq<QueueItem>, now: Time)
    ensures forall x :: x in ReadyCopies(items, now) <==>
      exists y :: y in items && Ops.ReadyToAdmit(y, now) && x == y.(state := Queued)
  {
    if items != [] {
      var front, last := items[..|items| - 1], items[|items| - 1];
      ReadyCopiesMembers(front, now);
      assert items == front + [last];
      forall x ensures x in ReadyCopies(items, now) <==>
        exists y :: y in items && Ops.ReadyToAdmit(y, now) && x == y.(state := Queued)
      {
        if x in ReadyCopies(front, now) {
          var y :| y in front && Ops.ReadyToAdmit(y, now) && x == y.(state := Queued);
          assert y in items;
        }
        if x in ReadyCopies(items, now) && x !in ReadyCopies(front, now) {
          assert last in items;
        }
      }
    }
  }

  /** How many of the items are ready. */
  function ReadyCount(items: seq<QueueItem>, now: Time): nat {
    if items == [] then 0
    else
      ReadyCount(items[..|items| - 1], now) + if Ops.ReadyToAdmit(items[|items| - 1], now) then 1 else 0
  }

  /** Each ready item stands behind as many copies as there are ready items before it, and there are no others. */
  ghost predicate KeepsOrder(items: seq<QueueItem>, result: seq<QueueItem>, now: Time) {
    && |result| == ReadyCount(items, now)
    && forall i :: 0 <= i < |items| && Ops.ReadyToAdmit(items[i], now) ==>
      IsCopyAt(result, ReadyCount(items[..i], now), items[i])
  }

  predicate IsCopyAt(result: seq<QueueItem>, k: nat, item: QueueItem) {
    k < |result| && result[k] == item.(state := Queued)
  }

  lemma KeepsOrderOneMore(items: seq<QueueItem>, result: seq<QueueItem>, now: Time, last: QueueItem)
    requires KeepsOrder(items, result, now)
    ensures KeepsOrder(items + [last],
      result + (if Ops.ReadyToAdmit(last, now) then [last.(state := Queued)] else []), now)
  {
    var all := items + [last];
    assert all[..|items|] == items;
    forall i | 0 <= i < |items| && Ops.ReadyToAdmit(all[i], now)
      ensures IsCopyAt(result, ReadyCount(all[..i], now), all[i])
    {
      assert all[..i] == items[..i] && all[i] == items[i];
    }
  }

  method EnqueueWhenReady(items: seq<QueueItem>, now: Time) returns (result: seq<QueueItem>)
    ensures result == ReadyCopies(items, now)
    ensures KeepsOrder(items, result, now)
  {
    hide KeepsOrder;
    result := [];
    NoneReady(now);
    for i := 0 to |items|
      invariant result == ReadyCopies(items[..i], now) && KeepsOrder(items[..i], result, now)
    {
      assert items[..i + 1] == items[..i] + [items[i]];
      KeepsOrderOneMore(items[..i], result, now, items[i]);
      var item := items[i];
      if item.state == QueueState.WaitingTime && item.availableAt <= now {
        var state := Transition(item.state, Queued);
        result := result + [item.(state := state.value)];
      }
    }
    assert items[..|items|] == items;
  }

  lemma NoneReady(now: Time)
    ensures KeepsOrder([], [], now)
  {
  }

  class Database {
    var tasks: Tasks
    var items: Items

    constructor ()
      ensures Value() == Db(map[], map[])
    {
      tasks, items := map[], map[];
    }

    ghost function Value(): Db
      reads this
    {
      Db(tasks, items)
    }

    /** The call did what the operation says, or failed with its error and was rolled back. */
    ghost predicate Performed(before: Db, operation: Result<Db>, error: Option<Error>)
      reads this
    {
      match operation
      case Ok(after) => error == None && Value() == after
      case Err(e) => error == Some(e) && Value() == before
    }

    // ---- queue repository ----

    method AddItem(item: QueueItem) returns (error: Option<Error>)
      modifies this`items
      ensures Performed(old(Value()), Ops.AddItem(old(Value()), item), error)
    {
      if item.id in items {
        return Some(Integrity);
      }
      items := items[item.id := item];
      error := None;
    }

    method ListByTask(taskId: string) returns (listing: seq<QueueItem>)
      requires KeyedItems(items)
      ensures Members(listing) == RowsOf(items, taskId)
      ensures Distinct(listing) && InOrder(listing, Newer)
    {
      var rows := RowsOf(items, taskId);
      var todo := rows;
      listing := [];
      while todo != {}
        invariant todo <= rows && Members(listing) == rows - todo
        invariant Distinct(listing) && InOrder(listing, Newer)
      {
        var row :| row in todo;
        InsertRow(items, rows, listing, row);
        listing := Insert(row, listing, Newer);
        todo := todo - {row};
      }
    }

    method ListByState(state: QueueState) returns (listing: seq<QueueItem>)
      ensures Members(listing) == RowsIn(items, state)
    {
      var rows := RowsIn(items, state);
      var todo := rows;
      listing := [];
      while todo != {}
        invariant todo <= rows && Members(listing) == rows - todo
      {
        var row :| row in todo;
        MembersAppend(listing, row);
        listing := listing + [row];
        todo := todo - {row};
      }
    }

    method ClaimNext(worker: string, leaseSeconds: Time, now: Time) returns (claimed: Option<QueueItem>)
      requires Keyed(Value())
      modifies this`items
      ensures items == Ops.Claim(old(items), worker, leaseSeconds, now)
      ensures claimed == match NextClaim(old(items))
                         case None => None
                         case Some(row) => Some(Ops.ClaimedBy(row, worker, leaseSeconds, now))
    {
      var queued := RowsIn(items, Queued);
      if queued == {} {
        return None;
      }
      SelectionExists(items, queued);
      var row :| row in queued && forall y :: y in queued && y != row ==> Before(row, y);
      SelectionIsUnique(items, queued, Some(row), NextClaim(items));
      var updated := row.(state := QueueState.Claimed, claimedBy := Some(worker),
          leaseUntil := Some(now + leaseSeconds));
      items := items[row.id := updated];
      claimed := Some(updated);
    }

    /** The rows a recovery at this moment changes, whatever its number of attempts. */
    method FindExpired(now: Time) returns (ids: set<string>)
      ensures ids <= items.Keys
      ensures forall id, maxAttempts :: id in items ==>
        (id in ids <==> Ops.Recover(items, now, maxAttempts)[id] != items[id])
    {
      ids := Ops.ExpiredRows(items, now);
    }

    method ReleaseClaimed(id: string, worker: string) returns (released: bool)
      modifies this`items
      ensures items == Ops.Release(old(items), id, worker)
      ensures released == (id in old(items) && Ops.HeldBy(old(items)[id], worker))
    {
      released := id in items && items[id].claimedBy == Some(worker) && InFlight(items[id].state);
      if released {
        items := items[id := items[id].(state := Queued, claimedBy := None, leaseUntil := None)];
      }
    }

    /** Two statements in turn: the second no longer sees the rows the first one requeued. */
    method RecoverExpired(now: Time, maxAttempts: int) returns (requeued: set<string>, manual: set<string>)
      modifies this`items
      ensures items == Ops.Recover(old(items), now, maxAttempts)
      ensures requeued == Ops.Requeued(old(items), now, maxAttempts)
      ensures manual == Ops.ExpiredRows(old(items), now) - requeued
    {
      var before := items;
      requeued := set id | id in items && Ops.Expired(items[id], now) && items[id].attemptCount + 1 <= maxAttempts;
      items := map id | id in before ::
        if id in requeued
        then before[id].(state := Queued, attemptCount := before[id].attemptCount + 1, claimedBy := None,
            leaseUntil := None)
        else before[id];
      var between := items;
      manual := set id | id in items && Ops.Expired(items[id], now) && items[id].attemptCount + 1 > maxAttempts;
      items := map id | id in between ::
        if id in manual
        then between[id].(state := QueueState.ManualReview, attemptCount := between[id].attemptCount + 1,
            claimedBy := None, leaseUntil := None)
        else between[id];
    }

    // ---- queue_cycle ----

    /** Admit what is due, then claim one item. */
    method AdvanceQueue(now: Time, worker: string, leaseSeconds: Time)
      returns (enqueued: seq<QueueItem>, claimed: Option<QueueItem>)
      requires Keyed(Value())
      modifies this`items
      ensures items == Ops.Claim(Ops.Admit(old(items), now), worker, leaseSeconds, now)
      ensures forall x :: x in enqueued <==> Admitted(old(items), now, x)
      ensures claimed == match NextClaim(Ops.Admit(old(items), now))
                         case None => None
                         case Some(row) => Some(Ops.ClaimedBy(row, worker, leaseSeconds, now))
    {
      enqueued := AdmitDue(now);
      claimed := ClaimNext(worker, leaseSeconds, now);
    }

    /** Store the queued copy of every waiting item that is due. */
    method AdmitDue(now: Time) returns (enqueued: seq<QueueItem>)
      requires Keyed(Value())
      modifies this`items
      ensures items == Ops.Admit(old(items), now)
      ensures forall x :: x in enqueued <==> Admitted(old(items), now, x)
    {
      hide Ops.ReadyToAdmit;
      var waiting := ListByState(QueueState.WaitingTime);
      enqueued := EnqueueWhenReady(waiting, now);
      AdmittedRows(items, waiting, now);
      ghost var before := items;
      for i := 0 to |enqueued|
        invariant items.Keys == before.Keys
        invariant forall j :: 0 <= j < i ==> enqueued[j].id in before && items[enqueued[j].id] == enqueued[j]
        invariant forall id :: id in before && (forall j :: 0 <= j < i ==> enqueued[j].id != id) ==>
          items[id] == before[id]
      {
        assert Admitted(before, now, enqueued[i]);
        forall j | 0 <= j < i ensures enqueued[j].id == enqueued[i].id ==> enqueued[j] == enqueued[i] {
          assert Admitted(before, now, enqueued[j]);
        }
        items := items[enqueued[i].id := enqueued[i]];
      }
      forall id | id in before ensures items[id] == Ops.Admit(before, now)[id] {
        var copy := before[id].(state := Queued);
        if Ops.ReadyToAdmit(before[id], now) {
          assert copy.id == id && Admitted(before, now, copy);
        } else {
          forall j | 0 <= j < |enqueued| ensures enqueued[j].id != id {
            assert Admitted(before, now, enqueued[j]);
          }
        }
      }
    }

    // ---- task_control_service ----

    method SyncTaskStatus(taskId: string, status: TaskStatus)
      modifies this`tasks
      ensures tasks == Ops.SetStatus(old(tasks), taskId, status)
    {
      if taskId in tasks {
        tasks := tasks[taskId := tasks[taskId].(status := status)];
      }
    }

    method PauseTask(id: string, worker: string) returns (error: Option<Error>)
      requires Keyed(Value())
      modifies this
      ensures Performed(old(Value()), Ops.Pause(old(Value()), id, worker), error)
    {
      if id !in items {
        return Some(NotFound);
      }
      var item := items[id];
      if !Unfinished(item.state) {
        return Some(Conflict);
      }
      if InFlight(item.state) && item.claimedBy != Some(worker) {
        return Some(Conflict);
      }
      var moved := Transition(item.state, Paused);
      if moved.Err? {
        return Some(moved.error);
      }
      item := item.(state := moved.value, claimedBy := None, leaseUntil := None);
      SyncTaskStatus(item.taskId, TaskStatus.Running);
      items := items[id := item];
      error := None;
    }

    method CancelTask(id: string, worker: string) returns (error: Option<Error>)
      requires Keyed(Value())
      modifies this
      ensures Performed(old(Value()), Ops.Cancel(old(Value()), id, worker), error)
    {
      if id !in items {
        return Some(NotFound);
      }
      var item := items[id];
      if !Unfinished(item.state) {
        return Some(Conflict);
      }
      if InFlight(item.state) && item.claimedBy != Some(worker) {
        return Some(Conflict);
      }
      var moved := Transition(item.state, QueueState.Cancelled);
      if moved.Err? {
        return Some(moved.error);
      }
      item := item.(state := moved.value, claimedBy := None, leaseUntil := None);
      SyncTaskStatus(item.taskId, TaskStatus.Cancelled);
      items := items[id := item];
      error := None;
    }

    method ResumeTask(id: string) returns (error: Option<Error>)
      requires Keyed(Value())
      modifies this
      ensures Performed(old(Value()), Ops.Resume(old(Value()), id), error)
    {
      if id !in items {
        return Some(NotFound);
      }
      var item := items[id];
      if item.state != Paused {
        return Some(Conflict);
      }
      var moved := Transition(item.state, Queued);
      SyncTaskStatus(item.taskId, TaskStatus.Ready);
      items := items[id := item.(state := moved.value)];
      error := None;
    }

    method RetryTask(id: string) returns (error: Option<Error>)
      requires Keyed(Value())
      modifies this
      ensures Performed(old(Value()), Ops.Retry(old(Value()), id), error)
    {
      if id !in items {
        return Some(NotFound);
      }
      var item := items[id];
      if item.state != QueueState.ManualReview && item.state != QueueState.Failed && item.state != RetryWait {
        return Some(Conflict);
      }
      if item.failureCode == Some(Ops.RESULT_UNCERTAIN) && !item.retrySafe {
        return Some(Conflict);
      }
      var moved := Transition(item.state, Queued);
      item := item.(state := moved.value, attemptCount := 0, claimedBy := None, leaseUntil := None,
                    failureCode := None, retrySafe := false);
      SyncTaskStatus(item.taskId, TaskStatus.Ready);
      items := items[id := item];
      error := None;
    }

    method MarkManualReview(id: string, worker: string) returns (error: Option<Error>)
      requires Keyed(Value())
      modifies this
      ensures Performed(old(Value()), Ops.MarkManualReview(old(Value()), id, worker), error)
    {
      if id !in items {
        return Some(NotFound);
      }
      var item := items[id];
      if !InFlight(item.state) || item.claimedBy != Some(worker) {
        return Some(Conflict);
      }
      var moved := Transition(item.state, QueueState.ManualReview);
      SyncTaskStatus(item.taskId, TaskStatus.ManualReview);
      items := items[id := item.(state := moved.value, claimedBy := None, leaseUntil := None)];
      error := None;
    }

    // ---- worker_execution and completion ----

    method CompleteTask(id: string, worker: string) returns (error: Option<Error>)
      requires Keyed(Value())
      modifies this
      ensures Performed(old(Value()), Ops.Complete(old(Value()), id, worker), error)
    {
      if id !in items {
        return Some(NotFound);
      }
      var item := items[id];
      if item.claimedBy != Some(worker) || !InFlight(item.state) {
        return Some(Conflict);
      }
      var moved := Transition(item.state, QueueState.Completed);
      if item.taskId !in tasks {
        return Some(NotFound);
      }
      items := items[id := item.(state := moved.value)];
      SyncTaskStatus(item.taskId, TaskStatus.Completed);
      error := None;
    }

    /** `claimed` is the copy the claim returned; the row may have changed since, but never its task and age. */
    method ProcessClaimed(claimed: QueueItem, worker: string, execution: Ops.Execution)
      returns (error: Option<Error>, events: seq<Ops.Level>)
      requires Keyed(Value())
      requires claimed.id in items ==>
        items[claimed.id].taskId == claimed.taskId && items[claimed.id].createdAt == claimed.createdAt
      modifies this
      ensures Performed(old(Value()), Ops.ProcessCopy(old(Value()), claimed, worker, execution), error)
      ensures error == None && claimed.state == QueueState.Claimed
          ==> events == Ops.BuildEvents(Ops.OutcomeOf(execution))
    {
      hide Ops.Complete, Ops.Start, Ops.BuildEvents, Keyed;
      events := [];
      if claimed.state != QueueState.Claimed {
        return None, events;
      }
      if claimed.id !in items {
        return Some(NotFound), events;
      }
      var tasksBefore, itemsBefore := tasks, items;
      var running := Transition(claimed.state, QueueState.Running);
      var item := claimed.(state := running.value);
      Ops.StartingACopy(Value(), claimed);
      items := items[item.id := item];
      if item.taskId !in tasks {
        items := itemsBefore;
        return Some(NotFound), events;
      }
      SyncTaskStatus(item.taskId, TaskStatus.Running);

      var outcome := Ops.OutcomeOf(execution);
      if outcome.status == Ops.OutUnknown {
        tasks, items := tasksBefore, itemsBefore;
        return Some(Invalid), events;
      }
      events := Ops.BuildEvents(outcome);
      if outcome.status == Ops.OutCompleted {
        error := CompleteTask(item.id, worker);
        if error.Some? {
          tasks, items := tasksBefore, itemsBefore;
        }
        return;
      }
      var linked := outcome.status == Ops.OutLinkExtracted || outcome.status == Ops.OutLinkReady;
      var final := Transition(item.state, Ops.FinalState(outcome.status));
      item := item.(state := final.value,
                    failureCode := if linked then None else outcome.failureCode,
                    retrySafe := if linked then false else outcome.retrySafe);
      items := items[item.id := item];
      SyncTaskStatus(item.taskId, Ops.FinalStatus(outcome.status));
      error := None;
    }

    /** The renewal the polling loop calls back; false when the item is no longer this worker's. */
    method RenewExecutionLease(id: string, worker: string, leaseSeconds: Time, now: Time) returns (renewed: bool)
      modifies this`items
      ensures items == Ops.Renew(old(items), id, worker, leaseSeconds, now)
      ensures renewed == (id in old(items) && Ops.HeldBy(old(items)[id], worker))
    {
      if id !in items || items[id].claimedBy != Some(worker) || !InFlight(items[id].state) {
        return false;
      }
      items := items[id := items[id].(leaseUntil := Some(now + leaseSeconds))];
      renewed := true;
    }

    // ---- the three admission paths ----

    /** The newest unfinished row in a newest-first listing. */
    method FirstUnfinished(taskId: string, listing: seq<QueueItem>) returns (active: Option<QueueItem>)
      requires KeyedItems(items)
      requires Members(listing) == RowsOf(items, taskId) && Distinct(listing) && InOrder(listing, Newer)
      ensures active == ActiveRow(items, taskId)
    {
      var rows := UnfinishedRows(items, taskId);
      active := None;
      for k := 0 to |listing|
        invariant forall j :: 0 <= j < k ==> listing[j] !in rows
      {
        assert listing[k] in Members(listing);
        if Unfinished(listing[k].state) {
          assert rows <= Members(listing);
          FirstOfListing(items, listing, rows, listing[k], k);
          SelectionIsUnique(items, rows, Some(listing[k]), ActiveRow(items, taskId));
          return Some(listing[k]);
        }
      }
      assert forall x :: x in rows ==> x in Members(listing);
      SelectionIsUnique(items, rows, None, ActiveRow(items, taskId));
    }

    method RearmTask(task: DramaTask, target: Stage) returns (rearmed: DramaTask)
      ensures rearmed == Ops.Rearmed(task, target) && rearmed.id == task.id
    {
      rearmed := task.(targetStage := target);
      if task.status == TaskStatus.DryRun || task.status == TaskStatus.Completed
          || task.status == TaskStatus.Cancelled {
        rearmed := rearmed.(status := Waiting);
      }
      if task.status == TaskStatus.DryRun {
        rearmed := rearmed.(linkSet := map[], linkStatus := NotStarted, deliveryDramaId := "",
                            promotionConfigs := map[], currentStage := WaitingAvailableTime);
      }
    }

    method EnqueueTask(taskId: string, target: Stage, soleCandidate: bool, newId: string, now: Time)
        returns (error: Option<Error>)
      requires Keyed(Value())
      modifies this
      ensures Performed(old(Value()), Ops.Enqueue(old(Value()), taskId, target, soleCandidate, newId, now), error)
    {
      hide Ops.Readmit, Ops.Rearmed, KeyedItems;
      if taskId !in tasks {
        return Some(NotFound);
      }
      var task := tasks[taskId];
      if task.linkStatus == DramaMismatch && !task.matchConfirmed && !soleCandidate {
        return Some(Conflict);
      }
      var tasksBefore := tasks;
      task := RearmTask(task, target);
      tasks := tasks[taskId := task];
      error := ReadmitTask(task, newId, now);
      if error.Some? {
        tasks := tasksBefore;
      }
    }

    /** The rows of the task in every table, then the task. */
    method DeleteTask(taskId: string) returns (error: Option<Error>)
      modifies this
      ensures Performed(old(Value()), Ops.Delete(old(Value()), taskId), error)
    {
      if taskId !in tasks {
        return Some(NotFound);
      }
      items := map id | id in items && items[id].taskId != taskId :: items[id];
      tasks := tasks - {taskId};
      error := None;
    }

    method ReadmitTask(task: DramaTask, newId: string, now: Time) returns (error: Option<Error>)
      requires Keyed(Value())
      modifies this
      ensures Performed(old(Value()), Ops.Readmit(old(Value()), task, newId, now), error)
    {
      var listing := ListByTask(task.id);
      var active := FirstUnfinished(task.id, listing);
      if active.Some? {
        if Ops.NeedsRetry(active.value.state) {
          error := RetryTask(active.value.id);
        } else {
          error := Some(Conflict);
        }
        return;
      }
      var rows := RowsOf(items, task.id);
      if listing != [] {
        var last := listing[0];
        assert last in Members(listing);
        FirstOfListing(items, listing, rows, last, 0);
        SelectionIsUnique(items, rows, Some(last), NewestRow(items, task.id));
        items := items[last.id := last.(state := QueueState.WaitingTime, availableAt := task.availableTime,
          claimedBy := None, leaseUntil := None, attemptCount := 0, nextRunAt := None)];
        error := None;
      } else {
        SelectionIsUnique(items, rows, None, NewestRow(items, task.id));
        error := AddItem(NewItem(newId, task.id, task.availableTime, now));
      }
    }

    /** The preparation service's path: any row that is neither completed nor cancelled is enough. */
    method EnsureQueue(taskId: string, newId: string, now: Time) returns (error: Option<Error>)
      requires Keyed(Value())
      requires taskId in tasks
      modifies this
      ensures Performed(old(Value()), Ops.EnsureQueue(old(Value()), taskId, newId, now), error)
    {
      var listing := ListByTask(taskId);
      for k := 0 to |listing|
        invariant forall j :: 0 <= j < k ==> !ActiveForPreparation(listing[j].state)
      {
        assert listing[k] in Members(listing);
        if ActiveForPreparation(listing[k].state) {
          return None;
        }
      }
      forall id | id in items && items[id].taskId == taskId ensures !ActiveForPreparation(items[id].state) {
        assert items[id] in Members(listing);
      }
      error := AddItem(NewItem(newId, taskId, tasks[taskId].availableTime, now));
    }

    /** The scheduler's path: never rerun what once finished, and move a waiting item with its task. */
    method EnsureQueueItem(task: DramaTask, newId: string, now: Time) returns (error: Option<Error>, enqueued: bool)
      requires Keyed(Value())
      modifies this`items
      ensures match Ops.EnsureQueueItem(old(Value()), task, newId, now)
              case Ok((after, added)) => error == None && Value() == after && enqueued == added
              case Err(e) => error == Some(e) && Value() == old(Value()) && !enqueued
    {
      var listing := ListByTask(task.id);
      if task.status == TaskStatus.DryRun {
        return None, false;
      }
      var active := FirstUnfinished(task.id, listing);
      if active.Some? {
        if active.value.state == QueueState.WaitingTime && active.value.availableAt != task.availableTime {
          items := items[active.value.id := active.value.(availableAt := task.availableTime)];
        }
        return None, false;
      }
      if listing != [] {
        assert listing[0] in Members(listing);
        return None, false;
      }
      error := AddItem(NewItem(newId, task.id, task.availableTime, now));
      enqueued := error.None?;
    }

    /** One iteration of a scan. On an error the caller rolls back. */
    method SyncOne(source: DramaTask, ids: Uuids, now: Time, counts: Counts) returns (result: Result<Counts>)
      requires Keyed(Value())
      modifies this
      ensures match SyncSource(old(Value()), source, ids, now, counts)
              case Ok((after, counted)) => result == Ok(counted) && Value() == after && Keyed(after)
              case Err(e) => result == Err(e)
    {
      UpsertIsKeyed(Value(), source, ids);
      SyncSourceIsKeyed(Value(), source, ids, now, counts);
      var upsert := Upsert(tasks, source, ids);
      if upsert.Err? {
        return Err(upsert.error);
      }
      var (updated, task, created) := upsert.value;
      tasks := updated;
      var error, enqueued := EnsureQueueItem(task, ids.itemId, now);
      if error.Some? {
        return Err(error.value);
      }
      result := Ok(Counts(
        counts.created + (if created then 1 else 0),
        counts.updated + (if created then 0 else 1),
        counts.enqueued + (if enqueued then 1 else 0),
        counts.skipped + (if enqueued then 0 else 1)));
    }

    /** One scan: a loop over the fetched source rows; an error abandons the scan and its changes. */
    method Tick(fetch: seq<DramaTask>, uuids: seq<Uuids>, now: Time) returns (result: Result<Counts>)
      requires Keyed(Value()) && |uuids| == |fetch|
      modifies this
      ensures Keyed(Value())
      ensures match Scheduling.Tick(old(Value()), fetch, uuids, now, NO_COUNTS)
              case Ok((after, counts)) => result == Ok(counts) && Value() == after
              case Err(e) => result == Err(e) && Value() == old(Value())
    {
      var tasksBefore, itemsBefore := tasks, items;
      var counts := NO_COUNTS;
      ghost var scan := Scheduling.Tick(Value(), fetch, uuids, now, counts);
      for i := 0 to |fetch|
        invariant Keyed(Value())
        invariant scan == Scheduling.Tick(Value(), fetch[i..], uuids[i..], now, counts)
      {
        assert fetch[i..][1..] == fetch[i + 1..] && uuids[i..][1..] == uuids[i + 1..];
        var synced := SyncOne(fetch[i], uuids[i], now, counts);
        if synced.Err? {
          tasks, items := tasksBefore, itemsBefore;
          return Err(synced.error);
        }
        counts := synced.value;
      }
      result := Ok(counts);
    }
  }

  /** `x` is the queued copy of a row that is due. */
  predicate Admitted(before: Items, now: Time, x: QueueItem) {
    x.id in before && Ops.ReadyToAdmit(before[x.id], now) && x == before[x.id].(state := Queued)
  }

  lemma AdmittedRows(before: Items, waiting: seq<QueueItem>, now: Time)
    requires KeyedItems(before) && Members(waiting) == RowsIn(before, QueueState.WaitingTime)
    ensures forall x :: x in ReadyCopies(waiting, now) <==> Admitted(before, now, x)
  {
    ReadyCopiesMembers(waiting, now);
    forall x ensures x in ReadyCopies(waiting, now) <==> Admitted(before, now, x) {
      if x in ReadyCopies(waiting, now) {
        var y :| y in waiting && Ops.ReadyToAdmit(y, now) && x == y.(state := Queued);
        assert y in Members(waiting);
      }
      if Admitted(before, now, x) {
        assert before[x.id] in Members(waiting);
      }
    }
  }
}
