/** Polling an external task until it completes, renewing the item's lease while waiting. */
module Polling {
  import opened Basics
  import opened QueueStates
  import opened Records
  import Ops = QueueOperations
  import opened QueueServices

  /** A sleep: the instants it spans and the queue row, which nobody touches meanwhile. */
  datatype Nap = Nap(start: Time, end: Time, row: QueueItem)

  /** At no instant of the nap would crash recovery take the item away. */
  ghost predicate Safe(nap: Nap) {
    forall t: Time :: nap.start <= t <= nap.end ==> !Ops.Expired(nap.row, t)
  }

  /** Recovery spares a renewed row for exactly the lease. */
  lemma SafeWhileLeased(nap: Nap, renewedAt: Time, leaseSeconds: Time)
    requires InFlight(nap.row.state) && nap.row.leaseUntil == Some(renewedAt + leaseSeconds)
    requires nap.start == renewedAt <= nap.end
    ensures Safe(nap) <==> nap.end - nap.start <= leaseSeconds
  {
    if nap.end - nap.start > leaseSeconds {
      assert Ops.Expired(nap.row, nap.end);
    }
  }

  datatype PollResult = PollCompleted | PollTimedOut | PollRejected

  function Min(x: Time, y: Time): Time {
    if x <= y then x else y
  }

  /** A clock that moves only while somebody sleeps; it remembers the naps. */
  class Clock {
    var now: Time
    ghost var naps: seq<Nap>

    constructor (now: Time)
      ensures this.now == now && naps == []
    {
      this.now, naps := now, [];
    }

    method Sleep(seconds: Time, ghost row: QueueItem)
      modifies this
      ensures now == old(now) + seconds
      ensures naps == old(naps) + [Nap(old(now), now, row)]
    {
      naps := naps + [Nap(now, now + seconds, row)];
      now := now + seconds;
    }
  }

  /** Whose lease the waiting worker renews, and for how long. */
  datatype Renewal = Renewal(id: string, worker: string, leaseSeconds: Time)

  ghost predicate Holds(items: Items, renewal: Renewal) {
    renewal.id in items && Ops.HeldBy(items[renewal.id], renewal.worker)
  }

  /** Only the lease of the held row has changed. */
  ghost predicate OnlyLeaseMoved(before: Items, after: Items, id: string) {
    && id in before && after.Keys == before.Keys
    && (forall x :: x in before && x != id ==> after[x] == before[x])
    && after[id] == before[id].(leaseUntil := after[id].leaseUntil)
  }

  /** The length of `count` intervals. */
  function Times(count: nat, interval: Time): Time {
    count as real * interval
  }

  lemma OneMore(count: nat, interval: Time)
    ensures Times(count + 1, interval) == Times(count, interval) + interval && Times(0, interval) == 0.0
  {
    assert (count + 1) as real * interval == count as real * interval + interval;
  }

  lemma {:induction false} MoreIsLonger(x: nat, y: nat, interval: Time)
    requires x <= y && interval > 0.0
    ensures Times(x, interval) <= Times(y, interval)
    decreases y - x
  {
    hide Times;
    if x < y {
      OneMore(x, interval);
      MoreIsLonger(x + 1, y, interval);
    }
  }

  /** Enough whole intervals to last `seconds`. */
  lemma EnoughIntervals(seconds: Time, interval: Time) returns (count: nat)
    requires seconds > 0.0 && interval > 0.0
    ensures seconds <= Times(count, interval)
  {
    var quotient := seconds / interval;
    count := quotient.Floor + 1;
    ProductGrows(quotient, count as real, interval);
    assert quotient * interval == seconds;
  }

  lemma ProductGrows(x: real, y: real, z: real)
    requires x <= y && z >= 0.0
    ensures x * z <= y * z
  {
  }

  /** A nap no longer than `longest` that starts with a renewal. */
  ghost predicate RenewedNap(nap: Nap, renewal: Renewal, longest: Time) {
    && nap.start <= nap.end <= nap.start + longest
    && InFlight(nap.row.state) && nap.row.leaseUntil == Some(nap.start + renewal.leaseSeconds)
  }

  /** Sleep `seconds` in heartbeats, renewing before each. */
  method WaitRenewing(db: Database, clock: Clock, renewal: Renewal, seconds: Time, heartbeat: Time)
    requires heartbeat > 0.0 && seconds > 0.0 && Holds(db.items, renewal)
    modifies db, clock
    ensures clock.now == old(clock.now) + seconds
    ensures old(clock.naps) < clock.naps
    ensures var first := clock.naps[|old(clock.naps)|];
      first.start == old(clock.now) && first.end == first.start + Min(heartbeat, seconds)
    ensures forall i :: |old(clock.naps)| <= i < |clock.naps| ==>
      RenewedNap(clock.naps[i], renewal, Min(heartbeat, seconds))
    ensures Holds(db.items, renewal) && OnlyLeaseMoved(old(db.items), db.items, renewal.id) && db.tasks == old(db.tasks)
  {
    hide Times;
    var waited := 0.0;
    ghost var rounds := EnoughIntervals(seconds, heartbeat);
    while waited < seconds
      invariant 0.0 <= waited <= seconds
      invariant clock.now == old(clock.now) + waited
      invariant old(clock.naps) <= clock.naps
      invariant if waited == 0.0 then clock.naps == old(clock.naps) else
        && |old(clock.naps)| < |clock.naps|
        && clock.naps[|old(clock.naps)|].start == old(clock.now)
        && clock.naps[|old(clock.naps)|].end == old(clock.now) + Min(heartbeat, seconds)
      invariant forall i :: |old(clock.naps)| <= i < |clock.naps| ==>
        RenewedNap(clock.naps[i], renewal, Min(heartbeat, seconds))
      invariant Holds(db.items, renewal) && OnlyLeaseMoved(old(db.items), db.items, renewal.id)
          && db.tasks == old(db.tasks)
      invariant seconds - waited <= Times(rounds, heartbeat)
      decreases rounds
    {
      OneMore(0, heartbeat);
      if rounds > 0 {
        OneMore(rounds - 1, heartbeat);
        MoreIsLonger(0, rounds - 1, heartbeat);
      }
      var renewed := db.RenewExecutionLease(renewal.id, renewal.worker, renewal.leaseSeconds, clock.now);
      var chunk := Min(heartbeat, seconds - waited);
      clock.Sleep(chunk, db.items[renewal.id]);
      waited := waited + chunk;
      rounds := rounds - 1;
    }
  }

  /** Poll until the answer is COMPLETED or the deadline has passed. The lease survives every instant of
      the wait exactly when no first heartbeat outlasts it. */
  method PollUntilCompleted(
      db: Database, clock: Clock, answers: nat -> bool, renewal: Renewal,
      pollInterval: Time, timeout: Time, heartbeat: Time)
    returns (result: PollResult, polls: nat)
    requires Holds(db.items, renewal) && !Ops.Expired(db.items[renewal.id], clock.now)
    modifies db, clock
    ensures result == PollRejected <==> pollInterval <= 0.0 || timeout <= 0.0 || heartbeat <= 0.0
    ensures result == PollRejected ==> polls == 0 && clock.now == old(clock.now) && clock.naps == old(clock.naps)
    ensures result == PollCompleted ==> polls > 0 && answers(polls - 1) && forall k :: 0 <= k < polls - 1 ==>
      !answers(k)
    ensures result == PollTimedOut ==> forall k :: 0 <= k < polls ==> !answers(k)
    // time: the whole wait is the timeout or less, and the polls are as many as intervals begin in it
    ensures result != PollRejected ==> clock.now <= old(clock.now) + timeout
    ensures result == PollTimedOut ==> clock.now == old(clock.now) + timeout && timeout <= Times(polls, pollInterval)
    ensures result != PollRejected ==> polls > 0 && Times(polls - 1, pollInterval) < timeout
    ensures result == PollCompleted ==> clock.now == old(clock.now) + Times(polls - 1, pollInterval)
    // the row: nothing but the lease moves
    ensures Holds(db.items, renewal) && OnlyLeaseMoved(old(db.items), db.items, renewal.id) && db.tasks == old(db.tasks)
    // the lease
    ensures old(clock.naps) <= clock.naps
    ensures (forall i :: |old(clock.naps)| <= i < |clock.naps| ==> Safe(clock.naps[i]))
       <==> (result == PollRejected || answers(0) || Min(heartbeat, Min(pollInterval, timeout)) <= renewal.leaseSeconds)
  {
    hide Times, Safe;
    polls := 0;
    if pollInterval <= 0.0 || timeout <= 0.0 || heartbeat <= 0.0 {
      return PollRejected, 0;
    }
    var deadline := clock.now + timeout;
    ghost var start, n := clock.now, |clock.naps|;
    ghost var longest := Min(heartbeat, Min(pollInterval, timeout));
    ghost var total := EnoughIntervals(timeout, pollInterval);
    OneMore(0, pollInterval);
    while clock.now < deadline
      invariant start <= clock.now <= deadline
      invariant forall k :: 0 <= k < polls ==> !answers(k)
      invariant clock.now == start + Min(Times(polls, pollInterval), timeout)
      invariant polls > 0 ==> Times(polls - 1, pollInterval) < timeout
      invariant Holds(db.items, renewal) && OnlyLeaseMoved(old(db.items), db.items, renewal.id)
          && db.tasks == old(db.tasks)
      invariant old(clock.naps) <= clock.naps
      invariant if polls == 0 then clock.naps == old(clock.naps) else
        n < |clock.naps| && clock.naps[n].end == clock.naps[n].start + longest
      invariant forall i :: n <= i < |clock.naps| ==> RenewedNap(clock.naps[i], renewal, longest)
      decreases total - polls
    {
      OneMore(polls, pollInterval);
      if polls >= total {
        MoreIsLonger(total, polls, pollInterval);
      }
      polls := polls + 1;
      if answers(polls - 1) {
        result := PollCompleted;
        LeaseSurvives(clock.naps, n, renewal, longest);
        return;
      }
      var remaining := deadline - clock.now;
      if remaining <= 0.0 {
        break;
      }
      WaitRenewing(db, clock, renewal, Min(pollInterval, remaining), heartbeat);
    }
    result := PollTimedOut;
    LeaseSurvives(clock.naps, n, renewal, longest);
  }

  lemma LeaseSurvives(naps: seq<Nap>, n: nat, renewal: Renewal, longest: Time)
    requires n <= |naps| && forall i :: n <= i < |naps| ==> RenewedNap(naps[i], renewal, longest)
    requires n < |naps| ==> naps[n].end == naps[n].start + longest
    ensures (forall i :: n <= i < |naps| ==> Safe(naps[i])) <==> n == |naps| || longest <= renewal.leaseSeconds
  {
    forall i | n <= i < |naps|
      ensures Safe(naps[i]) <==> naps[i].end - naps[i].start <= renewal.leaseSeconds
    {
      SafeWhileLeased(naps[i], naps[i].start, renewal.leaseSeconds);
    }
  }

  /** A lease of half a minute and a heartbeat of a minute: recovery requeues the item while its worker sleeps. */
  lemma ShortLeaseIsTakenAway()
    ensures var row := QueueItem(
        "q", "t", QueueState.Running, 0, 0.0, Some("w"), Some(30.0), 0, None, None, false, 0.0);
      var nap := Nap(0.0, 60.0, row);
      && RenewedNap(nap, Renewal("q", "w", 30.0), Min(60.0, Min(120.0, 600.0)))
      && !Safe(nap)
      && Ops.Recover(map["q" := row], 31.0, 3)
        == map["q" := row.(state := Queued, claimedBy := None, leaseUntil := None, attemptCount := 1)]
  {
    var row := QueueItem("q", "t", QueueState.Running, 0, 0.0, Some("w"), Some(30.0), 0, None, None, false, 0.0);
    SafeWhileLeased(Nap(0.0, 60.0, row), 0.0, 30.0);
  }
}
