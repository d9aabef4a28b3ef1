/** The life cycle states of a queue item and the table of legal moves between them. */
module QueueStates {
  import opened Basics

  datatype QueueState =
    | WaitingTime | Queued | Claimed | Running | RetryWait | Paused
    | ManualReview | Failed | DryRun | Completed | Cancelled

  /** The table of legal moves. */
  function Targets(current: QueueState): set<QueueState> {
    match current
    case WaitingTime => {Queued}
    case Queued => {Claimed, Paused, Cancelled}
    case Claimed => {Running, Queued, Paused, ManualReview, Completed, Cancelled}
    case Running => {Completed, DryRun, RetryWait, Paused, ManualReview, Failed, Cancelled, Queued}
    case RetryWait => {Queued, ManualReview}
    case Paused => {Queued, Running, Cancelled}
    case ManualReview => {Queued, Cancelled}
    case Failed => {Queued}
    case Completed | Cancelled | DryRun => {}
  }

  predicate CanTransition(current: QueueState, target: QueueState) {
    target in Targets(current)
  }

  function Transition(current: QueueState, target: QueueState): Result<QueueState> {
    if CanTransition(current, target) then Ok(target) else Err(Conflict)
  }

  /** What the scheduler and the manual re-enqueue call active. */
  predicate Unfinished(state: QueueState) {
    state != Completed && state != Cancelled && state != DryRun
  }

  /** What the preparation service calls active: a rehearsal result still counts. */
  predicate ActiveForPreparation(state: QueueState) {
    state != Completed && state != Cancelled
  }

  /** Held by a worker under a lease. */
  predicate InFlight(state: QueueState) {
    state == Claimed || state == Running
  }
}

/** Rows of the task and queue tables; a database value is the two tables. */
module Records {
  import opened Basics
  import opened QueueStates

  datatype QueueItem = QueueItem(
    id: string,
    taskId: string,
    state: QueueState,
    priority: int,
    availableAt: Time,
    claimedBy: Option<string>,
    leaseUntil: Option<Time>,
    attemptCount: int,
    nextRunAt: Option<Time>,
    failureCode: Option<string>,
    retrySafe: bool,
    createdAt: Time)

  /** A queue item as the services create it: waiting for its release time, unowned, never attempted. */
  function NewItem(id: string, taskId: string, availableAt: Time, now: Time): QueueItem {
    QueueItem(id, taskId, WaitingTime, 0, availableAt, None, None, 0, None, None, false, now)
  }

  datatype TaskStatus =
    | Waiting | Ready | Running | Completed | ManualReview | Failed
    | DryRun | LinkExtracted | LinkReady | Cancelled

  datatype LinkStatus = NotStarted | Validated | DramaMismatch | LinkFailed | InvalidUrl

  datatype Stage = WaitingAvailableTime | LinkExtraction | DeliveryDrama | PromotionConfig | LinksReady

  datatype DramaTask = DramaTask(
    id: string,
    sourceKey: string,
    sheetRow: Option<nat>,
    dramaName: string,
    platform: string,
    availableTime: Time,
    owner: Option<string>,
    status: TaskStatus,
    sourceLinks: map<string, string>,
    linkSet: map<string, string>,
    linkStatus: LinkStatus,
    currentStage: Stage,
    targetStage: Stage,
    deliveryDramaId: string,
    promotionConfigs: map<string, string>,
    matchConfirmed: bool)

  type Items = map<string, QueueItem>
  type Tasks = map<string, DramaTask>
  datatype Db = Db(tasks: Tasks, items: Items)

  ghost predicate KeyedItems(items: Items) {
    forall id :: id in items ==> items[id].id == id
  }

  /** Each row is stored under its own primary key. */
  ghost predicate Keyed(db: Db) {
    && (forall id :: id in db.tasks ==> db.tasks[id].id == id)
    && KeyedItems(db.items)
  }
}

/** What the queue repository's statements do to the queue table, as functions on table values. */
module QueueTable {
  import opened Basics
  import opened QueueStates
  import opened Records

  /** ORDER BY priority DESC, available_at ASC, id ASC. */
  predicate Before(x: QueueItem, y: QueueItem) {
    || x.priority > y.priority
    || (x.priority == y.priority && x.availableAt < y.availableAt)
    || (x.priority == y.priority && x.availableAt == y.availableAt && TextLess(x.id, y.id))
  }

  /** ORDER BY created_at DESC, id DESC. */
  predicate Newer(x: QueueItem, y: QueueItem) {
    x.createdAt > y.createdAt || (x.createdAt == y.createdAt && TextLess(y.id, x.id))
  }

  lemma BeforeIsStrictTotal(s: set<QueueItem>)
    requires forall x, y :: x in s && y in s && x.id == y.id ==> x == y
    ensures StrictTotalOrder(s, Before)
  {
    forall x, y | x in s && y in s
      ensures !Before(x, x) && (x != y ==> Before(x, y) || Before(y, x))
    {
      TextLessIsTotal(x.id, y.id);
      TextLessIsTotal(x.id, x.id);
    }
    forall x, y, z | x in s && y in s && z in s && Before(x, y) && Before(y, z)
      ensures Before(x, z)
    {
      if TextLess(x.id, y.id) && TextLess(y.id, z.id) {
        TextLessIsTransitive(x.id, y.id, z.id);
      }
    }
  }

  lemma NewerIsStrictTotal(s: set<QueueItem>)
    requires forall x, y :: x in s && y in s && x.id == y.id ==> x == y
    ensures StrictTotalOrder(s, Newer)
  {
    forall x, y | x in s && y in s
      ensures !Newer(x, x) && (x != y ==> Newer(x, y) || Newer(y, x))
    {
      TextLessIsTotal(x.id, y.id);
      TextLessIsTotal(x.id, x.id);
    }
    forall x, y, z | x in s && y in s && z in s && Newer(x, y) && Newer(y, z)
      ensures Newer(x, z)
    {
      if TextLess(y.id, x.id) && TextLess(z.id, y.id) {
        TextLessIsTransitive(z.id, y.id, x.id);
      }
    }
  }

  /** `rows` are rows of the table `items`. */
  ghost predicate StoredIn(rows: set<QueueItem>, items: Items) {
    KeyedItems(items) && forall row :: row in rows ==> row.id in items && items[row.id] == row
  }

  function RowsIn(items: Items, state: QueueState): set<QueueItem> {
    set id | id in items && items[id].state == state :: items[id]
  }

  function RowsOf(items: Items, taskId: string): set<QueueItem> {
    set id | id in items && items[id].taskId == taskId :: items[id]
  }

  /** The row `ORDER BY ... LIMIT 1` selects from `rows`, if there is one. */
  ghost predicate Selects(rows: set<QueueItem>, before: (QueueItem, QueueItem) -> bool, choice: Option<QueueItem>) {
    match choice
    case None => rows == {}
    case Some(row) => IsFirst(row, rows, before)
  }

  lemma SelectionExists(items: Items, rows: set<QueueItem>)
    requires StoredIn(rows, items)
    ensures exists choice :: Selects(rows, Before, choice)
    ensures exists choice :: Selects(rows, Newer, choice)
  {
    if rows == {} {
      assert Selects(rows, Before, None) && Selects(rows, Newer, None);
    } else {
      BeforeIsStrictTotal(rows);
      NewerIsStrictTotal(rows);
      var c := FirstExists(rows, Before);
      var n := FirstExists(rows, Newer);
      assert Selects(rows, Before, Some(c)) && Selects(rows, Newer, Some(n));
    }
  }

  /** The selection, as a function. */
  ghost function Select(items: Items, rows: set<QueueItem>,
      before: (QueueItem, QueueItem) -> bool): (choice: Option<QueueItem>)
    requires StoredIn(rows, items)
    requires before == Before || before == Newer
    ensures Selects(rows, before, choice)
  {
    SelectionExists(items, rows);
    var choice :| Selects(rows, before, choice);
    choice
  }

  lemma SelectionIsUnique(items: Items, rows: set<QueueItem>, x: Option<QueueItem>, y: Option<QueueItem>)
    requires StoredIn(rows, items)
    ensures Selects(rows, Before, x) && Selects(rows, Before, y) ==> x == y
    ensures Selects(rows, Newer, x) && Selects(rows, Newer, y) ==> x == y
  {
    BeforeIsStrictTotal(rows);
    NewerIsStrictTotal(rows);
  }

  function UnfinishedRows(items: Items, taskId: string): set<QueueItem> {
    set id | id in items && items[id].taskId == taskId && Unfinished(items[id].state) :: items[id]
  }

  /** The task's newest row that is not finished. */
  ghost function ActiveRow(items: Items, taskId: string): (active: Option<QueueItem>)
    requires KeyedItems(items)
    ensures active.Some? ==>
      && active.value.id in items && items[active.value.id] == active.value
      && active.value.taskId == taskId && Unfinished(active.value.state)
    ensures active.None? ==> forall id :: id in items && items[id].taskId == taskId ==> !Unfinished(items[id].state)
  {
    var active := Select(items, UnfinishedRows(items, taskId), Newer);
    assert forall id :: id in items && items[id].taskId == taskId && Unfinished(items[id].state) ==>
      items[id] in UnfinishedRows(items, taskId);
    active
  }

  /** The task's newest row. */
  ghost function NewestRow(items: Items, taskId: string): (newest: Option<QueueItem>)
    requires KeyedItems(items)
    ensures newest.Some? ==>
      newest.value.id in items && items[newest.value.id] == newest.value && newest.value.taskId == taskId
    ensures newest.None? ==> forall id :: id in items ==> items[id].taskId != taskId
  {
    var newest := Select(items, RowsOf(items, taskId), Newer);
    assert forall id :: id in items && items[id].taskId == taskId ==> items[id] in RowsOf(items, taskId);
    newest
  }

  /** The next row to claim. */
  ghost function NextClaim(items: Items): (next: Option<QueueItem>)
    requires KeyedItems(items)
    ensures next.Some? ==>
      next.value.id in items && items[next.value.id] == next.value && next.value.state == Queued
    ensures next.None? ==> forall id :: id in items ==> items[id].state != Queued
  {
    var next := Select(items, RowsIn(items, Queued), Before);
    assert forall id :: id in items && items[id].state == Queued ==> items[id] in RowsIn(items, Queued);
    next
  }
}
