/** Claiming order: the queue view's sort and the claim statement agree on who is next. */
module QueueOrdering {
  import opened Basics
  import opened QueueStates
  import opened Records
  import opened QueueTable
  import opened QueueOperations
  import opened Sorting

  function QueuedOnly(items: seq<QueueItem>): seq<QueueItem> {
    if items == [] then []
    else (if items[0].state == Queued then [items[0]] else []) + QueuedOnly(items[1..])
  }

  function PeekNext(items: seq<QueueItem>, limit: int): seq<QueueItem> {
    Prefix(Sorted(QueuedOnly(items), Before), limit)
  }

  // ---- the table as a listing ----

  /** `listing` lists every row of the table once, in whatever order. */
  ghost predicate Lists(listing: seq<QueueItem>, items: Items) {
    && Distinct(listing)
    && Members(listing) == items.Values
  }

  lemma {:induction false} QueuedOnlyLists(s: seq<QueueItem>)
    requires Distinct(s)
    ensures Distinct(QueuedOnly(s))
    ensures forall x :: x in QueuedOnly(s) <==> x in s && x.state == Queued
  {
    if s != [] {
      QueuedOnlyLists(s[1..]);
      assert s == [s[0]] + s[1..];
    }
  }

  // ---- claiming ----

  datatype Claims = Claims(rows: seq<QueueItem>, items: Items)

  /** Up to `k` claims in a row, the i-th by `workers[i]` at `times[i]`: the rows picked, and the table left. */
  ghost function ClaimRun(items: Items, calls: seq<(string, Time, Time)>): Claims
    requires KeyedItems(items)
    decreases |calls|
  {
    if calls == [] then Claims([], items)
    else
      var (worker, leaseSeconds, now) := calls[0];
      match NextClaim(items)
      case None => ClaimRun(Claim(items, worker, leaseSeconds, now), calls[1..])
      case Some(row) =>
        var rest := ClaimRun(Claim(items, worker, leaseSeconds, now), calls[1..]);
        Claims([row] + rest.rows, rest.items)
  }

  /** `order` lists the queued rows, next first. */
  ghost predicate Schedules(order: seq<QueueItem>, items: Items) {
    Distinct(order) && InOrder(order, Before) && Members(order) == RowsIn(items, Queued)
  }

  lemma HeadIsNext(items: Items, order: seq<QueueItem>)
    requires KeyedItems(items) && Schedules(order, items)
    ensures NextClaim(items) == if order == [] then None else Some(order[0])
  {
    var queued := RowsIn(items, Queued);
    if order != [] {
      BeforeIsStrictTotal(queued);
      assert order[0] in queued;
      forall y | y in queued && y != order[0] ensures Before(order[0], y) {
        var j :| 0 <= j < |order| && order[j] == y;
      }
      SelectionIsUnique(items, queued, NextClaim(items), Some(order[0]));
    }
  }

  lemma ClaimShortensSchedule(items: Items, order: seq<QueueItem>, worker: string, leaseSeconds: Time, now: Time)
    requires KeyedItems(items) && Schedules(order, items) && order != []
    ensures Schedules(order[1..], Claim(items, worker, leaseSeconds, now))
  {
    HeadIsNext(items, order);
    var after := Claim(items, worker, leaseSeconds, now);
    assert order == [order[0]] + order[1..];
    forall x ensures x in Members(order[1..]) <==> x in RowsIn(after, Queued) {
      if x in RowsIn(after, Queued) {
        assert x in RowsIn(items, Queued);
      }
      if x in order[1..] {
        assert x in RowsIn(items, Queued) && x.id in after && after[x.id] == x;
      }
    }
  }

  /** `after` is `before` with the rows `shown` claimed, the i-th by the i-th call, and nothing else changed. */
  ghost predicate Drained(before: Items, after: Items, shown: seq<QueueItem>, calls: seq<(string, Time, Time)>) {
    && |shown| <= |calls|
    && after.Keys == before.Keys
    && (forall i :: 0 <= i < |shown| ==>
         shown[i].id in after && after[shown[i].id] == ClaimedBy(shown[i], calls[i].0, calls[i].1, calls[i].2))
    && (forall id :: id in before && (forall i :: 0 <= i < |shown| ==> shown[i].id != id) ==> after[id] == before[id])
  }

  lemma DrainOneMore(before: Items, after: Items, row: QueueItem, rest: seq<QueueItem>,
      calls: seq<(string, Time, Time)>)
    requires calls != [] && row.id in before
    requires Drained(before[row.id := ClaimedBy(row, calls[0].0, calls[0].1, calls[0].2)], after, rest, calls[1..])
    requires forall i :: 0 <= i < |rest| ==> rest[i].id != row.id
    ensures Drained(before, after, [row] + rest, calls)
  {
    var shown := [row] + rest;
    forall i | 0 <= i < |shown|
      ensures shown[i].id in after && after[shown[i].id] == ClaimedBy(shown[i], calls[i].0, calls[i].1, calls[i].2)
    {
      if i > 0 {
        assert shown[i] == rest[i - 1] && calls[i] == calls[1..][i - 1];
      }
    }
    forall id | id in before && (forall i :: 0 <= i < |shown| ==> shown[i].id != id)
      ensures after[id] == before[id]
    {
      assert shown[0].id != id;
      forall i | 0 <= i < |rest| ensures rest[i].id != id {
        assert shown[i + 1] == rest[i];
      }
    }
  }

  lemma ScheduledIds(items: Items, order: seq<QueueItem>)
    requires KeyedItems(items) && Schedules(order, items)
    ensures forall i :: 0 <= i < |order| ==> order[i].id in items && items[order[i].id] == order[i]
    ensures forall i, j :: 0 <= i < j < |order| ==> order[i].id != order[j].id
  {
    forall i | 0 <= i < |order| ensures order[i].id in items && items[order[i].id] == order[i] {
      assert order[i] in Members(order);
      assert order[i] in RowsIn(items, Queued);
    }
  }

  lemma {:induction false} ClaimsFollowSchedule(items: Items, order: seq<QueueItem>, calls: seq<(string, Time, Time)>)
    requires KeyedItems(items) && Schedules(order, items)
    ensures ClaimRun(items, calls).rows == Prefix(order, |calls|)
    ensures Drained(items, ClaimRun(items, calls).items, Prefix(order, |calls|), calls)
    decreases |calls|
  {
    HeadIsNext(items, order);
    if calls != [] {
      var after := Claim(items, calls[0].0, calls[0].1, calls[0].2);
      if order == [] {
        ClaimsFollowSchedule(after, order, calls[1..]);
      } else {
        ScheduledIds(items, order);
        ClaimShortensSchedule(items, order, calls[0].0, calls[0].1, calls[0].2);
        ClaimsFollowSchedule(after, order[1..], calls[1..]);
        var rest := Prefix(order[1..], |calls[1..]|);
        assert Prefix(order, |calls|) == [order[0]] + rest;
        DrainOneMore(items, ClaimRun(items, calls).items, order[0], rest, calls);
      }
    }
  }

  /** k claims with nothing between them return what the queue view shows for k, in its order, each row
      to the worker that asked, and touch no other row. */
  lemma ClaimingDrainsInOrder(items: Items, listing: seq<QueueItem>, calls: seq<(string, Time, Time)>)
    requires KeyedItems(items) && Lists(listing, items)
    ensures ClaimRun(items, calls).rows == PeekNext(listing, |calls|)
    ensures Drained(items, ClaimRun(items, calls).items, PeekNext(listing, |calls|), calls)
  {
    var queued := QueuedOnly(listing);
    var order := Sorted(queued, Before);
    QueuedOnlyLists(listing);
    SortedMembers(queued, Before);
    forall x ensures x in Members(order) <==> x in RowsIn(items, Queued) {
      assert x in Members(listing) <==> x in items.Values;
    }
    BeforeIsStrictTotal(RowsIn(items, Queued));
    assert Members(queued) == RowsIn(items, Queued);
    StrictTotalIsKeyOrder(Members(queued), Before);
    SortedInOrder(queued, Before);
    ClaimsFollowSchedule(items, order, calls);
  }
}
