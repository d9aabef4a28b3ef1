/** The bound on automatic runs is exact: a worker that crashes on every attempt uses every move. */
module QueueWorstCase {
  import opened Basics
  import opened QueueStates
  import opened Records
  import opened QueueTable
  import opened QueueOperations
  import opened QueueProtocol

  const ID := "item"

  /** The only item of the only task. */
  function Only(state: QueueState, attempts: int, lease: Option<Time>): QueueItem {
    NewItem(ID, "task", 0.0, 0.0).(
      state := state, attemptCount := attempts, claimedBy := if lease.Some? then Some("worker")
          else None, leaseUntil := lease)
  }

  function OnlyTask(status: TaskStatus): DramaTask {
    DramaTask("task", "key", None, "drama", "TOMATO", 0.0, None, status, map[], map[], NotStarted,
      WaitingAvailableTime, LinksReady, "", map[], false)
  }

  function Holding(item: QueueItem, status: TaskStatus): Db {
    Db(map["task" := OnlyTask(status)], map[ID := item])
  }

  /** One crash: claimed for a second, started, and found expired two seconds later. */
  function Crash(now: Time, maxAttempts: int): seq<Step> {
    [ClaimNext(now, "worker", 1.0), StartItem(ID), RecoverExpired(now + 2.0, maxAttempts)]
  }

  function Crashes(count: nat, now: Time, maxAttempts: int): seq<Step> {
    if count == 0 then [] else Crash(now, maxAttempts) + Crashes(count - 1, now + 2.0, maxAttempts)
  }

  lemma ClaimsOnly(attempts: int, status: TaskStatus, now: Time)
    ensures Next(Holding(Only(Queued, attempts, None), status), ClaimNext(now, "worker", 1.0))
      == Holding(Only(QueueState.Claimed, attempts, Some(now + 1.0)), status)
  {
    var db := Holding(Only(Queued, attempts, None), status);
    assert ID in db.items && db.items[ID].state == Queued;
    assert NextClaim(db.items) == Some(db.items[ID]);
  }

  lemma StartsOnly(attempts: int, status: TaskStatus, lease: Time)
    ensures Next(Holding(Only(QueueState.Claimed, attempts, Some(lease)), status), StartItem(ID))
      == Holding(Only(QueueState.Running, attempts, Some(lease)), TaskStatus.Running)
  {
  }

  lemma RecoversOnly(attempts: int, lease: Time, now: Time, maxAttempts: int)
    requires lease < now
    ensures Next(Holding(Only(QueueState.Running, attempts, Some(lease)), TaskStatus.Running),
        RecoverExpired(now, maxAttempts))
      == Holding(Only(if attempts + 1 <= maxAttempts then Queued else QueueState.ManualReview, attempts + 1, None),
          TaskStatus.Running)
  {
    var db := Holding(Only(QueueState.Running, attempts, Some(lease)), TaskStatus.Running);
    assert Expired(db.items[ID], now);
  }

  /** The changes of a run are those of its first step and of the rest. */
  lemma ChangesAddUp(db: Db, clock: Time, step: Step, rest: seq<Step>, next: Db, id: string)
    requires Keyed(db) && Keyed(next) && id in db.items && id in next.items && next == Next(db, step)
    requires clock <= ClockAfter(clock, step) && Chronological(ClockAfter(clock, step), rest)
    ensures Chronological(clock, [step] + rest)
    ensures Changes(db, clock, [step] + rest, id)
      == (if next.items[id].state != db.items[id].state then 1 else 0)
          + Changes(next, ClockAfter(clock, step), rest, id)
  {
    hide Next;
    var steps := [step] + rest;
    assert steps[0] == step && steps[1..] == rest;
  }

  lemma HoldingIsKeyed(state: QueueState, attempts: int, lease: Option<Time>, status: TaskStatus)
    ensures var db := Holding(Only(state, attempts, lease), status);
      Keyed(db) && ID in db.items && db.items[ID].state == state
  {
  }

  /** What the item is after a crash. */
  function Crashed(attempts: int, maxAttempts: int): Db {
    Holding(Only(if attempts + 1 <= maxAttempts then Queued else QueueState.ManualReview, attempts + 1, None),
        TaskStatus.Running)
  }

  /** One crash is three changes. */
  lemma CrashChangesThreeTimes(attempts: int, status: TaskStatus, now: Time, maxAttempts: int, later: seq<Step>)
    requires Keyed(Crashed(attempts, maxAttempts)) && ID in Crashed(attempts, maxAttempts).items
    requires Keyed(Holding(Only(Queued, attempts, None), status))
        && ID in Holding(Only(Queued, attempts, None), status).items
    requires Chronological(now + 2.0, later)
    ensures var (queued, steps) := (Holding(Only(Queued, attempts, None), status), Crash(now, maxAttempts) + later);
      && Chronological(now, steps)
      && Changes(queued, now, steps, ID) == 3 + Changes(Crashed(attempts, maxAttempts), now + 2.0, later, ID)
  {
    hide Next, Chronological, Changes, Holding, Only, Keyed;
    var queued := Holding(Only(Queued, attempts, None), status);
    var claimed := Holding(Only(QueueState.Claimed, attempts, Some(now + 1.0)), status);
    var running := Holding(Only(QueueState.Running, attempts, Some(now + 1.0)), TaskStatus.Running);
    HoldingIsKeyed(Queued, attempts, None, status);
    HoldingIsKeyed(QueueState.Claimed, attempts, Some(now + 1.0), status);
    HoldingIsKeyed(QueueState.Running, attempts, Some(now + 1.0), TaskStatus.Running);
    HoldingIsKeyed(if attempts + 1 <= maxAttempts then Queued
        else QueueState.ManualReview, attempts + 1, None, TaskStatus.Running);
    ClaimsOnly(attempts, status, now);
    StartsOnly(attempts, status, now + 1.0);
    RecoversOnly(attempts, now + 1.0, now + 2.0, maxAttempts);
    ChangesAddUp(running, now, RecoverExpired(now + 2.0, maxAttempts), later, Crashed(attempts, maxAttempts), ID);
    var recovery := [RecoverExpired(now + 2.0, maxAttempts)] + later;
    ChangesAddUp(claimed, now, StartItem(ID), recovery, running, ID);
    ChangesAddUp(queued, now, ClaimNext(now, "worker", 1.0), [StartItem(ID)] + recovery, claimed, ID);
    assert Crash(now, maxAttempts) + later == [ClaimNext(now, "worker", 1.0)] + ([StartItem(ID)] + recovery);
  }

  /** The crashes from a queued item on change its state three times each. */
  lemma {:induction false} EveryCrashCounts(attempts: nat, status: TaskStatus, now: Time, maxAttempts: int)
    requires attempts <= maxAttempts
    ensures var (db, steps) :=
        (Holding(Only(Queued, attempts, None), status), Crashes(maxAttempts + 1 - attempts, now, maxAttempts));
      && Chronological(now, steps)
      && (forall step :: step in steps ==> Automatic(step, maxAttempts))
      && Changes(db, now, steps, ID) == 3 * (maxAttempts + 1 - attempts)
    decreases maxAttempts - attempts
  {
    hide Next, Chronological, Changes, Automatic, Only, Crash, Keyed;
    var later := Crashes(maxAttempts - attempts, now + 2.0, maxAttempts);
    if attempts < maxAttempts {
      EveryCrashCounts(attempts + 1, TaskStatus.Running, now + 2.0, maxAttempts);
    }
    HoldingIsKeyed(Queued, attempts, None, status);
    HoldingIsKeyed(if attempts + 1 <= maxAttempts then Queued
        else QueueState.ManualReview, attempts + 1, None, TaskStatus.Running);
    NothingLeft(Crashed(attempts, maxAttempts), now + 2.0);
    CrashChangesThreeTimes(attempts, status, now, maxAttempts, later);
    CrashesAreAutomatic(now, maxAttempts);
  }

  lemma NothingLeft(db: Db, clock: Time)
    ensures Keyed(db) && ID in db.items ==> Chronological(clock, []) && Changes(db, clock, [], ID) == 0
  {
  }

  lemma CrashesAreAutomatic(now: Time, maxAttempts: int)
    ensures forall step :: step in Crash(now, maxAttempts) ==> Automatic(step, maxAttempts)
  {
  }

  /** For every number of attempts some automatic run reaches the bound. */
  lemma BoundIsReached(maxAttempts: nat)
    ensures exists db: Db, clock: Time, steps: seq<Step>, id: string ::
      && Keyed(db) && Chronological(clock, steps) && id in db.items && db.items[id].attemptCount == 0
      && (forall step :: step in steps ==> Automatic(step, maxAttempts))
      && Changes(db, clock, steps, id) == 1 + 3 * (maxAttempts + 1)
  {
    hide Next, Chronological, Changes;
    var db := Holding(Only(QueueState.WaitingTime, 0, None), TaskStatus.Waiting);
    var crashes := Crashes(maxAttempts + 1, 0.0, maxAttempts);
    var steps := [AdmitReady(0.0)] + crashes;
    EveryCrashCounts(0, TaskStatus.Waiting, 0.0, maxAttempts);
    AdmitsOnly();
    ChangesAddUp(db, 0.0, AdmitReady(0.0), crashes, Holding(Only(Queued, 0, None), TaskStatus.Waiting), ID);
    assert Changes(db, 0.0, steps, ID) == 1 + 3 * (maxAttempts + 1);
  }

  lemma AdmitsOnly()
    ensures Next(Holding(Only(QueueState.WaitingTime, 0, None), TaskStatus.Waiting), AdmitReady(0.0))
      == Holding(Only(Queued, 0, None), TaskStatus.Waiting)
  {
  }
}
