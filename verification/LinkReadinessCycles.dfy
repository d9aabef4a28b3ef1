/** Resuming from the stored row: which ids a cycle keeps, and what any run of cycles creates. */
module LinkReadinessCycles {
  import opened Basics
  import opened LinkReadiness
  import opened LinkReadinessProofs
  import opened LinkReadinessStages
  import opened LinkReadinessRuns

  // ---- what the stored row has ----

  /** The calls before the last successful update. */
  function SavedUpTo(events: seq<Event>): (k: nat)
    ensures k <= |events|
  {
    if events == [] then 0
    else
      var last := events[|events| - 1];
      if last.UpdateCall? && last.ok then |events| - 1 else SavedUpTo(events[..|events| - 1])
  }

  predicate SameIds(before: Row, after: Row) {
    before.dramaId == after.dramaId && before.configs == after.configs
  }

  /** The stored row has exactly the ids created before the last successful update. */
  lemma {:induction false} StoredIsLastUpdate(start: Row, stored: Row, events: seq<Event>)
    requires WritesKnown(start, events) && SameIds(start, stored)
    ensures Advanced(start, LastSaved(stored, events), events[..SavedUpTo(events)])
    decreases |events|
  {
    hide Advanced;
    if events == [] {
      NothingAdvanced(start, stored);
    } else {
      var n := |events| - 1;
      var shorter := events[..n];
      assert forall i :: 0 <= i < n ==> shorter[..i] == events[..i];
      StoredIsLastUpdate(start, stored, shorter);
      assert shorter[..SavedUpTo(shorter)] == events[..SavedUpTo(shorter)];
      var before := LastSaved(stored, shorter);
      if events[n].PrepareCall? && events[n].found.Some? {
        AdvancedOfIds(start, before, LastSaved(stored, events), events[..SavedUpTo(events)]);
      }
    }
  }

  lemma NothingAdvanced(start: Row, after: Row)
    requires SameIds(start, after)
    ensures Advanced(start, after, [])
  {
    forall slot ensures AdvancedAt(start, after, [], slot) {
    }
  }

  lemma {:induction false} CreatedHas(events: seq<Event>, i: nat, slot: Slot)
    requires i < |events| && Asks(events[i], slot) && IdFrom(events[i]).Some?
    ensures IdFrom(events[i]).value in Created(events, slot)
    decreases |events|
  {
    if i < |events| - 1 {
      CreatedHas(events[..|events| - 1], i, slot);
    }
  }

  /** An update after the call at `i` succeeded. */
  predicate SavedLater(log: seq<Event>, i: nat) {
    exists j :: i < j < |log| && SavedAt(log, j)
  }

  predicate SavedAt(log: seq<Event>, j: nat) {
    j < |log| && log[j].UpdateCall? && log[j].ok
  }

  lemma {:induction false} SavedUpToIsLast(events: seq<Event>)
    ensures SavedUpTo(events) > 0 ==> SavedAt(events, SavedUpTo(events))
    ensures forall j: nat :: SavedAt(events, j) ==> j <= SavedUpTo(events)
    decreases |events|
  {
    if events != [] {
      var shorter := events[..|events| - 1];
      SavedUpToIsLast(shorter);
      assert forall j: nat :: j < |events| - 1 ==> (SavedAt(events, j) <==> SavedAt(shorter, j));
    }
  }

  /** One creation, and what was created before some point. */
  lemma CreatedBefore(events: seq<Event>, i: nat, k: nat, slot: Slot)
    requires i < |events| && k <= |events| && Asks(events[i], slot) && IdFrom(events[i]).Some?
    requires |Created(events, slot)| <= 1
    ensures Created(events, slot) == [IdFrom(events[i]).value]
    ensures Created(events[..k], slot) == if i < k then [IdFrom(events[i]).value] else []
  {
    hide Created;
    CreatedHas(events, i, slot);
    assert events == events[..k] + events[k..];
    CreatedAdds(events[..k], events[k..], slot);
    if i < k {
      CreatedHas(events[..k], i, slot);
    } else {
      CreatedHas(events[k..], i - k, slot);
    }
  }

  lemma KeptAt(start: Row, stored: Row, task: Row, events: seq<Event>, i: nat, slot: Slot)
    requires Advanced(start, task, events) && WritesKnown(start, events) && SameIds(start, stored)
    requires i < |events| && Asks(events[i], slot) && IdFrom(events[i]).Some?
    ensures IdOf(task, slot) == IdFrom(events[i]).value
    ensures IdOf(LastSaved(stored, events), slot) == IdFrom(events[i]).value <==> SavedLater(events, i)
  {
    hide LastSaved, Created, WritesKnown, SavedAt, Asks, IdFrom, IdOf;
    var k := SavedUpTo(events);
    assert i < k <==> SavedLater(events, i) by {
      SavedUpToIsLast(events);
      if i < k {
        assert SavedAt(events, k);
      }
    }
    StoredIsLastUpdate(start, stored, events);
    assert AdvancedAt(start, task, events, slot);
    assert AdvancedAt(start, LastSaved(stored, events), events[..k], slot);
    CreatedBefore(events, i, k, slot);
  }

  /** However an execution ends: the stored row has an id that was created exactly when a later update succeeded. */
  lemma KeptExactlyWhenSaved(
      w: World, o: Oracle, target: RunTarget, now: Time, events: seq<Event>, i: nat, slot: Slot)
    requires SameIds(w.task, w.stored) && Execute(w, o, target, now).0.log == w.log + events
    requires i < |events| && Asks(events[i], slot) && IdFrom(events[i]).Some?
    ensures var (after, outcome) := Execute(w, o, target, now);
      && IdOf(after.task, slot) == IdFrom(events[i]).value
      && (IdOf(after.stored, slot) == IdFrom(events[i]).value <==> SavedLater(events, i))
      && (outcome != Raised ==> SavedLater(events, i))
  {
    hide Execute, LastSaved, Advanced, WritesKnown, SavedLater;
    ExecuteGoes(w, o, target, now);
    var (after, outcome) := Execute(w, o, target, now);
    assert Since(w, after) == events;
    KeptAt(w.task, w.stored, after.task, events, i, slot);
  }

  // ---- one cycle ----

  /** The cycle was committed. */
  predicate Kept(events: seq<Event>) {
    events != [] && events[|events| - 1] == CommitCall(true)
  }

  /** A cycle created something and was rolled back. */
  predicate Lost(events: seq<Event>, slot: Slot) {
    Created(events, slot) != [] && !Kept(events)
  }

  ghost predicate TurnAt(before: Row, after: Row, events: seq<Event>, slot: Slot) {
    && |Created(events, slot)| <= 1
    && (IdOf(before, slot) != "" ==> Created(events, slot) == [] && IdOf(after, slot) == IdOf(before, slot))
    && (Kept(events) ==> Created(events, slot) == Gained(IdOf(before, slot), IdOf(after, slot)))
  }

  /** What a cycle does to the stored row and outside. */
  ghost predicate TurnDone(w: World, after: World) {
    && w.log <= after.log && after.stored == after.committed
    && (forall slot :: TurnAt(w.stored, after.stored, Since(w, after), slot))
    && (!Kept(Since(w, after)) ==> after.stored == w.stored && RolledBack(after.log))
  }

  /** The call before the rollback failed. */
  predicate RolledBack(log: seq<Event>) {
    |log| >= 2 && log[|log| - 1] == RollbackCall && !Succeeded(log[|log| - 2])
  }

  lemma NothingCreated(events: seq<Event>, slot: Slot)
    requires NoCreations(events)
    ensures Created(events, slot) == []
    decreases |events|
  {
    if events != [] {
      NothingCreated(events[..|events| - 1], slot);
    }
  }

  lemma OneMoreGrows(w: World, o: Oracle)
    ensures w.log < Other(w, o).log && w.log < Save(w, o).log && w.log < Commit(w, o).log
  {
  }

  lemma OneMoreStored(first: World, w: World, after: World, event: Event)
    requires first.log <= w.log && NoCreations(Since(first, w)) && after.log == w.log + [event]
    requires !event.AssetCall? && !event.ConfigCall?
    ensures first.log < after.log && NoCreations(Since(first, after))
  {
    OneMoreSince(first, w, event);
  }

  lemma OpenGoes(w: World, o: Oracle)
    ensures var begun := Open(w, o);
      && w.log < begun.log && NoCreations(Since(w, begun)) && begun.committed == w.committed
      && (Went(begun) ==> begun.task == begun.stored && SameTask(w.stored, begun.task))
  {
    hide NoCreations, Succeeded;
    NoneYet(w);
    var queued := Other(w, o);
    OneMoreStored(w, w, queued, OtherCall(Next(w, o).ok));
    if Went(queued) {
      var read := Other(queued, o);
      OneMoreStored(w, queued, read, OtherCall(Next(queued, o).ok));
      if Went(read) {
        var marked := Marked(read.(task := read.stored), Working);
        OneMoreStored(w, read, Save(marked, o), UpdateCall(marked.task, Next(marked, o).ok));
        SaveGoesThrough(marked, o);
      }
    }
  }

  lemma NoneYet(w: World)
    ensures NoCreations(Since(w, w))
  {
  }

  lemma SaveGoesThrough(w: World, o: Oracle)
    ensures Went(Save(w, o)) ==> Save(w, o).stored == w.task
  {
  }

  /** However far the closing calls get, nothing is created, and they end with a commit or a failure. */
  ghost predicate Closed(first: World, after: World) {
    && first.log < after.log && Advanced(first.task, after.task, Since(first, after))
    && (if Went(after) then Kept(after.log) && after.committed == after.stored == after.task
        else after.committed == first.committed)
  }

  lemma GoingCloses(first: World, w: World)
    requires Going(first, w) && first.log < w.log && !Went(w)
    ensures Closed(first, w)
  {
  }

  lemma CommitCloses(first: World, w: World, o: Oracle)
    requires Going(first, w) && w.stored == w.task
    ensures Closed(first, Commit(w, o))
  {
    hide Executed, LastSaved, Advanced;
    assert Advanced(first.task, w.task, Since(first, w)) by {
      assert Executed(first.task, w.task, Since(first, w));
      GoingAdvances(first, w);
    }
    OneMoreSince(first, w, CommitCall(Next(w, o).ok));
    AdvancedStays(first.task, w.task, w.task, Since(first, w), CommitCall(Next(w, o).ok));
  }

  lemma GoingAdvances(first: World, w: World)
    requires Going(first, w)
    ensures first.log <= w.log && Advanced(first.task, w.task, Since(first, w))
  {
  }

  lemma CloseGoes(first: World, w: World, o: Oracle, outcome: Outcome)
    requires Going(first, w)
    ensures Closed(first, Close(w, o, outcome))
  {
    hide Going, Closed, Succeeded;
    var event := Other(w, o);
    OtherGoes(first, w, o);
    GoingGrows(first, w);
    OneMoreGrows(w, o);
    if !Went(event) {
      GoingCloses(first, event);
      return;
    }
    var queued := Other(event, o);
    OtherGoes(first, event, o);
    OneMoreGrows(event, o);
    if !Went(queued) {
      GoingCloses(first, queued);
      return;
    }
    var marked := Marked(queued, ClosingState(outcome));
    TaskStays(first, queued, marked.task);
    SaveGoes(first, marked, o);
    OneMoreGrows(marked, o);
    var saved := Save(marked, o);
    if !Went(saved) {
      GoingCloses(first, saved);
    } else {
      SaveGoesThrough(marked, o);
      CommitCloses(first, saved, o);
    }
  }

  // ---- what a cycle does ----

  lemma CommittedTurn(w: World, begun: World, closed: World)
    requires w.log < begun.log && NoCreations(Since(w, begun)) && SameIds(w.stored, begun.task)
    requires Closed(begun, closed) && Went(closed)
    ensures TurnDone(w, closed)
  {
    forall slot ensures TurnAt(w.stored, closed.stored, Since(w, closed), slot) {
      CreatedInACycle(w, begun, closed, slot);
    }
    assert closed.log[|closed.log| - 1] == Since(w, closed)[|Since(w, closed)| - 1];
  }

  lemma CreatedInACycle(w: World, begun: World, closed: World, slot: Slot)
    requires w.log < begun.log && NoCreations(Since(w, begun)) && SameIds(w.stored, begun.task)
    requires Closed(begun, closed)
    ensures Created(Since(w, closed), slot) == Gained(IdOf(w.stored, slot), IdOf(closed.task, slot))
    ensures IdOf(w.stored, slot) != "" ==> IdOf(closed.task, slot) == IdOf(w.stored, slot)
  {
    hide Created;
    SinceGrows(w, begun, closed);
    NothingCreated(Since(w, begun), slot);
    CreatedAdds(Since(w, begun), Since(begun, closed), slot);
    assert AdvancedAt(begun.task, closed.task, Since(begun, closed), slot);
  }

  /** A failure before the execution. */
  lemma UnopenedTurn(w: World, begun: World)
    requires w.log < begun.log && NoCreations(Since(w, begun)) && begun.committed == w.committed == w.stored
    requires !Went(begun)
    ensures TurnDone(w, Rollback(begun))
  {
    var after := Rollback(begun);
    assert Since(w, after) == Since(w, begun) + [RollbackCall];
    forall slot ensures TurnAt(w.stored, after.stored, Since(w, after), slot) {
      NothingCreated(Since(w, after), slot);
    }
  }

  /** What a cycle that was rolled back had created. */
  lemma CreatedAndLost(w: World, begun: World, closed: World, slot: Slot)
    requires w.log < begun.log && NoCreations(Since(w, begun)) && SameIds(w.stored, begun.task)
    requires Closed(begun, closed)
    ensures w.log < Rollback(closed).log
    ensures Created(Since(w, Rollback(closed)), slot) == Gained(IdOf(w.stored, slot), IdOf(closed.task, slot))
  {
    hide Created;
    CreatedInACycle(w, begun, closed, slot);
    assert Since(w, Rollback(closed)) == Since(w, closed) + [RollbackCall];
    CreatedOneMore(Since(w, closed), RollbackCall, slot);
  }

  lemma RolledBackTurn(w: World, begun: World, closed: World)
    requires w.log < begun.log && NoCreations(Since(w, begun)) && SameIds(w.stored, begun.task)
    requires Closed(begun, closed) && !Went(closed) && begun.committed == w.committed == w.stored
    ensures TurnDone(w, Rollback(closed))
  {
    var after := Rollback(closed);
    forall slot ensures TurnAt(w.stored, after.stored, Since(w, after), slot) {
      CreatedAndLost(w, begun, closed, slot);
    }
    assert after.log[|after.log| - 1] == Since(w, after)[|Since(w, after)| - 1];
  }

  /** A cycle creates at most one of each thing; it keeps what it created exactly when it is committed. */
  lemma CycleGoes(w: World, o: Oracle, target: RunTarget, now: Time)
    requires w.stored == w.committed
    ensures TurnDone(w, Cycle(w, o, target, now))
  {
    hide Open, Execute, Close, TurnDone, Closed, Going, NoCreations, Succeeded;
    OpenGoes(w, o);
    var begun := Open(w, o);
    if !Went(begun) {
      UnopenedTurn(w, begun);
    } else {
      ExecuteGoes(begun, o, target, now);
      var (executed, outcome) := Execute(begun, o, target, now);
      CloseGoes(begun, executed, o, outcome);
      var closed := Close(executed, o, outcome);
      if Went(closed) {
        CommittedTurn(w, begun, closed);
      } else {
        RolledBackTurn(w, begun, closed);
      }
    }
  }

  /** Where a committed cycle leaves the stored task: as the execution left it, in the state its outcome calls for. */
  lemma CommittedState(w: World, o: Oracle, target: RunTarget, now: Time)
    requires w.stored == w.committed
    ensures var after := Cycle(w, o, target, now);
      var (executed, outcome) := Execute(Open(w, o), o, target, now);
      && w.log <= after.log
      && (Kept(Since(w, after)) ==>
        && after.stored == after.committed == executed.task.(state := after.stored.state)
        && after.stored.state ==
          match outcome
          case ExtractionDone => Extracted
          case AllLinksReady => Ready
          case Waiting => InReview
          case ManualReview => InReview
          case Raised => InReview)
  {
    hide Execute, TurnDone, Going, Open, Succeeded;
    CycleGoes(w, o, target, now);
    TurnGrows(w, Cycle(w, o, target, now));
    OpenGoes(w, o);
    var begun := Open(w, o);
    if !Went(begun) {
      FailureEnds(begun, w);
    } else {
      ExecuteGoes(begun, o, target, now);
      var (executed, outcome) := Execute(begun, o, target, now);
      GoingGrows(begun, executed);
      ClosingStores(executed, o, outcome);
      KeptWhenClosingSucceeds(w, executed, o, outcome);
      var closed := Close(executed, o, outcome);
      if !Went(closed) {
        FailureEnds(closed, w);
      }
    }
  }

  lemma ClosingStores(w: World, o: Oracle, outcome: Outcome)
    ensures var closed := Close(w, o, outcome);
      Went(closed) ==> closed.stored == closed.committed == w.task.(state := ClosingState(outcome))
  {
  }

  lemma CommitEnds(w: World, o: Oracle, first: World)
    requires first.log <= w.log
    ensures first.log <= Commit(w, o).log
    ensures Kept(Since(first, Commit(w, o))) <==> Next(w, o).ok
  {
    assert Commit(w, o).log[|w.log|] == Since(first, Commit(w, o))[|Since(first, Commit(w, o))| - 1];
  }

  lemma FailureEnds(w: World, first: World)
    requires first.log < w.log && !Went(w)
    ensures !Kept(Since(first, w)) && !Kept(w.log) && !Kept(Since(first, Rollback(w)))
  {
    assert w.log[|w.log| - 1] == Since(first, w)[|Since(first, w)| - 1];
    assert Since(first, Rollback(w)) == Since(first, w) + [RollbackCall];
  }

  /** The three calls before and the four calls after the execution succeed. */
  predicate AroundSucceeds(w: World, o: Oracle, target: RunTarget, now: Time) {
    OpeningSucceedsAt(o, |w.log|) && ClosingSucceedsAt(o, |Execute(Open(w, o), o, target, now).0.log|)
  }

  predicate OpeningSucceedsAt(o: Oracle, n: nat) {
    o(n).ok && o(n + 1).ok && o(n + 2).ok
  }

  predicate ClosingSucceedsAt(o: Oracle, n: nat) {
    o(n).ok && o(n + 1).ok && o(n + 2).ok && o(n + 3).ok
  }

  /** The closing calls end with a commit exactly when all four succeed. */
  lemma KeptWhenClosingSucceeds(first: World, w: World, o: Oracle, outcome: Outcome)
    requires first.log <= w.log
    ensures var (closed, n) := (Close(w, o, outcome), |w.log|);
      && first.log < closed.log
      && (Went(closed) <==> ClosingSucceedsAt(o, n))
      && (Went(closed) ==> Kept(Since(first, closed)))
  {
    hide Since, Kept;
    var event := Other(w, o);
    OneMoreGrows(w, o);
    if Went(event) {
      var queued := Other(event, o);
      OneMoreGrows(event, o);
      if Went(queued) {
        var marked := Marked(queued, ClosingState(outcome));
        var saved := Save(marked, o);
        OneMoreGrows(marked, o);
        OneMoreGrows(saved, o);
        CommitEnds(saved, o, first);
      }
    }
  }

  lemma OpeningCalls(w: World, o: Oracle)
    ensures Went(Open(w, o)) <==> OpeningSucceedsAt(o, |w.log|)
  {
  }

  /** Which failures lose: exactly those of the three calls before and the four calls after the execution. */
  lemma KeptWhenAllAroundSucceeds(w: World, o: Oracle, target: RunTarget, now: Time)
    requires w.stored == w.committed
    ensures var after := Cycle(w, o, target, now);
      w.log <= after.log && (Kept(Since(w, after)) <==> AroundSucceeds(w, o, target, now))
  {
    hide Execute, Going, Open, Close, Since, Kept, Succeeded, Went, OpeningSucceedsAt, ClosingSucceedsAt;
    OpenGoes(w, o);
    OpeningCalls(w, o);
    var begun := Open(w, o);
    if !Went(begun) {
      FailureEnds(begun, w);
    } else {
      ExecuteGoes(begun, o, target, now);
      var (executed, outcome) := Execute(begun, o, target, now);
      GoingGrows(begun, executed);
      KeptWhenClosingSucceeds(w, executed, o, outcome);
      var closed := Close(executed, o, outcome);
      if !Went(closed) {
        FailureEnds(closed, w);
      }
    }
  }

  lemma TurnGrows(w: World, after: World)
    requires TurnDone(w, after)
    ensures w.log <= after.log && after.stored == after.committed
  {
  }

  // ---- any run of cycles ----

  /** The cycle after `plan` that follows it with `next`. */
  function Turn(w: World, o: Oracle, plan: seq<(RunTarget, Time)>, next: (RunTarget, Time)): seq<Event> {
    var before := Cycles(w, o, plan);
    var after := Cycle(before, o, next.0, next.1);
    if |before.log| <= |after.log| then Since(before, after) else []
  }

  /** How many cycles of a run created something for the slot and were rolled back. */
  function Losses(w: World, o: Oracle, plan: seq<(RunTarget, Time)>, slot: Slot): nat {
    if plan == [] then 0
    else
      var n := |plan| - 1;
      Losses(w, o, plan[..n], slot) + if Lost(Turn(w, o, plan[..n], plan[n]), slot) then 1 else 0
  }

  /** Some cycle of a run creates for the slot although an earlier one lost what it had created. */
  predicate CreatesAfterLoss(w: World, o: Oracle, plan: seq<(RunTarget, Time)>, slot: Slot) {
    plan != [] &&
    var n := |plan| - 1;
    || CreatesAfterLoss(w, o, plan[..n], slot)
    || (Losses(w, o, plan[..n], slot) > 0 && Created(Turn(w, o, plan[..n], plan[n]), slot) != [])
  }

  lemma {:induction false} RunGoes(w: World, o: Oracle, plan: seq<(RunTarget, Time)>)
    requires w.stored == w.committed
    ensures var last := Cycles(w, o, plan); w.log <= last.log && last.stored == last.committed
    decreases |plan|
  {
    hide Cycle, TurnDone;
    if plan != [] {
      var n := |plan| - 1;
      RunGoes(w, o, plan[..n]);
      var before := Cycles(w, o, plan[..n]);
      CycleGoes(before, o, plan[n].0, plan[n].1);
      TurnGrows(before, Cycle(before, o, plan[n].0, plan[n].1));
    }
  }

  /** The calls of a run are those of the run without its last cycle and of that cycle. */
  lemma RunOneMore(w: World, o: Oracle, plan: seq<(RunTarget, Time)>, slot: Slot)
    requires w.stored == w.committed && plan != []
    ensures var n := |plan| - 1;
      var (before, last) := (Cycles(w, o, plan[..n]), Cycles(w, o, plan));
      && w.log <= before.log <= last.log
      && Turn(w, o, plan[..n], plan[n]) == Since(before, last)
      && Created(Since(w, last), slot) == Created(Since(w, before), slot) + Created(Since(before, last), slot)
      && TurnAt(before.stored, last.stored, Since(before, last), slot)
      && (!Kept(Since(before, last)) ==> last.stored == before.stored)
  {
    hide Cycle, Created;
    var n := |plan| - 1;
    RunGoes(w, o, plan[..n]);
    RunGoes(w, o, plan);
    var (before, last) := (Cycles(w, o, plan[..n]), Cycles(w, o, plan));
    CycleGoes(before, o, plan[n].0, plan[n].1);
    SinceGrows(w, before, last);
    CreatedAdds(Since(w, before), Since(before, last), slot);
  }

  /**
   * Over any run of cycles, each starting from the stored row, whichever calls fail: what was created is what the
   * stored row gained and one more for each losing cycle; what the row had from the start is never created again.
   */
  lemma {:induction false} EveryCreationIsKeptOrLost(w: World, o: Oracle, plan: seq<(RunTarget, Time)>, slot: Slot)
    requires w.stored == w.committed
    ensures var last := Cycles(w, o, plan);
      && w.log <= last.log
      && |Created(Since(w, last), slot)|
        == Losses(w, o, plan, slot) + |Gained(IdOf(w.stored, slot), IdOf(last.stored, slot))|
      && (IdOf(w.stored, slot) != "" ==>
        Created(Since(w, last), slot) == [] && IdOf(last.stored, slot) == IdOf(w.stored, slot))
      && (Losses(w, o, plan, slot) == 0 ==>
        Created(Since(w, last), slot) == Gained(IdOf(w.stored, slot), IdOf(last.stored, slot)))
    decreases |plan|
  {
    hide Cycles, Cycle, Created, IdOf, Turn;
    if plan == [] {
      EmptyRun(w, o, slot);
    } else {
      var n := |plan| - 1;
      EveryCreationIsKeptOrLost(w, o, plan[..n], slot);
      RunOneMore(w, o, plan, slot);
    }
  }

  lemma EmptyRun(w: World, o: Oracle, slot: Slot)
    ensures Cycles(w, o, []) == w && Since(w, w) == [] && Created([], slot) == []
  {
  }

  /**
   * Over any run, at most one thing is created for a slot exactly when no cycle creates after one that lost what it
   * had created.
   */
  lemma {:induction false} CreatedAtMostOnceExactly(w: World, o: Oracle, plan: seq<(RunTarget, Time)>, slot: Slot)
    requires w.stored == w.committed
    ensures var last := Cycles(w, o, plan);
      && w.log <= last.log
      && (|Created(Since(w, last), slot)| <= 1 <==> !CreatesAfterLoss(w, o, plan, slot))
    decreases |plan|
  {
    hide Cycles, Cycle, Created, IdOf, Turn;
    if plan == [] {
      EmptyRun(w, o, slot);
    } else {
      var n := |plan| - 1;
      CreatedAtMostOnceExactly(w, o, plan[..n], slot);
      EveryCreationIsKeptOrLost(w, o, plan[..n], slot);
      RunOneMore(w, o, plan, slot);
    }
  }

  // ---- the same by the calls that fail ----

  /** The `i`-th cycle of the run creates something for the slot. */
  predicate CreatesAt(w: World, o: Oracle, plan: seq<(RunTarget, Time)>, slot: Slot, i: nat)
    requires i < |plan|
  {
    Created(Turn(w, o, plan[..i], plan[i]), slot) != []
  }

  /** One of the seven calls around the execution of the `i`-th cycle fails. */
  predicate FailsAroundAt(w: World, o: Oracle, plan: seq<(RunTarget, Time)>, i: nat)
    requires i < |plan|
  {
    !AroundSucceeds(Cycles(w, o, plan[..i]), o, plan[i].0, plan[i].1)
  }

  lemma LostByFailingAround(w: World, o: Oracle, plan: seq<(RunTarget, Time)>, slot: Slot, i: nat)
    requires w.stored == w.committed && i < |plan|
    ensures Lost(Turn(w, o, plan[..i], plan[i]), slot) <==>
      CreatesAt(w, o, plan, slot, i) && FailsAroundAt(w, o, plan, i)
  {
    hide Execute, Open, Cycle, Created, Cycles;
    RunGoes(w, o, plan[..i]);
    KeptWhenAllAroundSucceeds(Cycles(w, o, plan[..i]), o, plan[i].0, plan[i].1);
  }

  /** A cycle created for the slot and failed around its execution. */
  predicate LosesAt(w: World, o: Oracle, plan: seq<(RunTarget, Time)>, slot: Slot, i: nat)
    requires i < |plan|
  {
    CreatesAt(w, o, plan, slot, i) && FailsAroundAt(w, o, plan, i)
  }

  lemma PrefixCycles(w: World, o: Oracle, plan: seq<(RunTarget, Time)>, slot: Slot, n: nat, i: nat)
    requires i < n <= |plan|
    ensures CreatesAt(w, o, plan[..n], slot, i) <==> CreatesAt(w, o, plan, slot, i)
    ensures LosesAt(w, o, plan[..n], slot, i) <==> LosesAt(w, o, plan, slot, i)
  {
    assert plan[..n][..i] == plan[..i];
  }

  lemma {:induction false} LossesAreFailuresAround(w: World, o: Oracle, plan: seq<(RunTarget, Time)>, slot: Slot)
    requires w.stored == w.committed
    ensures Losses(w, o, plan, slot) > 0 <==> exists i :: 0 <= i < |plan| && LosesAt(w, o, plan, slot, i)
    decreases |plan|
  {
    hide Lost, Turn, LosesAt, CreatesAt, FailsAroundAt;
    if plan != [] {
      var n := |plan| - 1;
      LossesAreFailuresAround(w, o, plan[..n], slot);
      LostAt(w, o, plan, slot, n);
      forall i | 0 <= i < n ensures LosesAt(w, o, plan[..n], slot, i) <==> LosesAt(w, o, plan, slot, i) {
        PrefixCycles(w, o, plan, slot, n, i);
      }
    }
  }

  lemma LostAt(w: World, o: Oracle, plan: seq<(RunTarget, Time)>, slot: Slot, i: nat)
    requires w.stored == w.committed && i < |plan|
    ensures Lost(Turn(w, o, plan[..i], plan[i]), slot) <==> LosesAt(w, o, plan, slot, i)
  {
    hide Lost, Turn, CreatesAt, FailsAroundAt;
    LostByFailingAround(w, o, plan, slot, i);
  }

  /** Some cycle creates for the slot after one that created for it and failed around its execution. */
  ghost predicate CreatesAgain(w: World, o: Oracle, plan: seq<(RunTarget, Time)>, slot: Slot) {
    exists i, j :: 0 <= i < j < |plan| && LosesAt(w, o, plan, slot, i) && CreatesAt(w, o, plan, slot, j)
  }

  lemma {:induction false} CreatesAgainAfterLoss(w: World, o: Oracle, plan: seq<(RunTarget, Time)>, slot: Slot)
    requires w.stored == w.committed
    ensures CreatesAfterLoss(w, o, plan, slot) <==> CreatesAgain(w, o, plan, slot)
    decreases |plan|
  {
    hide Losses, Turn, LosesAt, CreatesAt;
    if plan != [] {
      var n := |plan| - 1;
      CreatesAgainAfterLoss(w, o, plan[..n], slot);
      LossesAreFailuresAround(w, o, plan[..n], slot);
      LastCreates(w, o, plan, slot);
      forall i | 0 <= i < n
        ensures LosesAt(w, o, plan[..n], slot, i) <==> LosesAt(w, o, plan, slot, i)
        ensures CreatesAt(w, o, plan[..n], slot, i) <==> CreatesAt(w, o, plan, slot, i)
      {
        PrefixCycles(w, o, plan, slot, n, i);
      }
    }
  }

  lemma LastCreates(w: World, o: Oracle, plan: seq<(RunTarget, Time)>, slot: Slot)
    requires plan != []
    ensures var n := |plan| - 1; CreatesAt(w, o, plan, slot, n) <==> Created(Turn(w, o, plan[..n], plan[n]), slot) != []
  {
  }

  /**
   * Over any run of cycles, at most one thing is created for a slot exactly when no cycle creates after one that
   * created and had a failure among the three calls before or the four calls after its execution.
   */
  lemma CreatedOnceUnlessAroundFails(w: World, o: Oracle, plan: seq<(RunTarget, Time)>, slot: Slot)
    requires w.stored == w.committed
    ensures var last := Cycles(w, o, plan);
      && w.log <= last.log
      && (|Created(Since(w, last), slot)| <= 1 <==> !CreatesAgain(w, o, plan, slot))
    ensures (forall i :: 0 <= i < |plan| ==> !FailsAroundAt(w, o, plan, i)) ==>
      |Created(Since(w, Cycles(w, o, plan)), slot)| <= 1
  {
    hide Cycles, Created, CreatesAfterLoss, FailsAroundAt, CreatesAt;
    CreatedAtMostOnceExactly(w, o, plan, slot);
    CreatesAgainAfterLoss(w, o, plan, slot);
  }

  // ---- a run that creates twice ----

  /** The update after the creation fails, and the failure cannot be recorded. */
  lemma LosingDrama(w: World, o: Oracle, link: string)
    requires w.task.dramaId == "" && PrimaryLink(w.task.links) == Some(link)
    requires o(|w.log|).ok && o(|w.log| + 1).ok && !o(|w.log| + 2).ok && !o(|w.log| + 3).ok
    ensures var (after, end) := EnsureDeliveryDrama(w, o);
      && |after.log| == |w.log| + 4 && end == Stopped(Raised)
      && after.task == w.task.(dramaId := o(|w.log| + 1).id, stage := DeliveryDrama)
      && after.stored == w.stored && after.committed == w.committed
  {
    hide PrimaryLink;
    var made := MakeAsset(Other(w, o), o, link);
    assert |made.log| == |w.log| + 2 && made.task == w.task.(dramaId := o(|w.log| + 1).id, stage := DeliveryDrama);
    var unsaved := Save(At(made, DeliveryDrama), o);
    assert !Went(unsaved) && FinishStage(made, o, DeliveryDrama) == StageFailure(unsaved, o, DeliveryDrama);
    assert StageFailure(unsaved, o, DeliveryDrama) == (Other(unsaved, o), Stopped(Raised));
  }

  lemma LosingExecution(w: World, o: Oracle, now: Time, link: string)
    requires w.task.endType == Native && LinksDone(w.task) && w.task.dramaId == "" && now >= w.task.availableTime
    requires PrimaryLink(w.task.links) == Some(link)
    requires o(|w.log|).ok && o(|w.log| + 1).ok && o(|w.log| + 2).ok && !o(|w.log| + 3).ok && !o(|w.log| + 4).ok
    ensures var (after, outcome) := Execute(w, o, LinkReadyTarget, now);
      |after.log| == |w.log| + 5 && outcome == Raised && after.task.dramaId == o(|w.log| + 2).id
  {
    hide PrimaryLink, EnsureDeliveryDrama, EnsurePromotionConfigs;
    var linked := PassStage(w, o, Extraction).0;
    assert EnsureLinks(w, o) == (linked, Done) && |linked.log| == |w.log| + 1;
    LosingDrama(linked, o, link);
    assert Deliver(linked, o) == EnsureDeliveryDrama(linked, o);
  }

  lemma OpeningSucceeds(w: World, o: Oracle)
    requires o(|w.log|).ok && o(|w.log| + 1).ok && o(|w.log| + 2).ok
    ensures var begun := Open(w, o);
      Went(begun) && begun.task == w.stored.(state := Working) && |begun.log| == |w.log| + 3
  {
  }

  lemma ClosingFailsAtOnce(w: World, o: Oracle, outcome: Outcome)
    requires !o(|w.log|).ok
    ensures var closed := Close(w, o, outcome);
      !Went(closed) && closed.task == w.task && |closed.log| == |w.log| + 1
  {
  }

  /** After that the event cannot be added either: the cycle is rolled back. */
  lemma LosingCycle(w: World, o: Oracle, now: Time, link: string)
    requires w.stored == w.committed && w.stored.endType == Native && LinksDone(w.stored) && w.stored.dramaId == ""
    requires PrimaryLink(w.stored.links) == Some(link) && now >= w.stored.availableTime
    requires forall k :: |w.log| <= k < |w.log| + 6 ==> o(k).ok
    requires forall k :: |w.log| + 6 <= k < |w.log| + 9 ==> !o(k).ok
    ensures var after := Cycle(w, o, LinkReadyTarget, now);
      && |after.log| == |w.log| + 10 && after.stored == after.committed == w.stored
      && w.log < after.log && Created(Since(w, after), TheDrama) == [o(|w.log| + 5).id]
  {
    hide PrimaryLink, Execute, Going, Created, Open, Close, Closed, Went, NoCreations, Since;
    var begun := Open(w, o);
    OpeningSucceeds(w, o);
    OpenGoes(w, o);
    LosingExecution(begun, o, now, link);
    ExecuteGoes(begun, o, LinkReadyTarget, now);
    var executed := Execute(begun, o, LinkReadyTarget, now).0;
    ClosingFailsAtOnce(executed, o, Raised);
    CloseGoes(begun, executed, o, Raised);
    var closed := Close(executed, o, Raised);
    ClosedUncommitted(begun, closed);
    CreatedAndLost(w, begun, closed, TheDrama);
  }

  lemma ClosedUncommitted(first: World, after: World)
    requires Closed(first, after) && !Went(after)
    ensures after.committed == first.committed
  {
  }

  /** A native task with its link validated and nothing created. */
  function NativeTask(): Row {
    Row(Native, 0.0, true, [("IAA", "link")], "", map[], NotStarted, Pending)
  }

  /** In every cycle of ten calls the last four fail. */
  function LateFailures(call: nat): Answer {
    Answer(call % 10 < 6, false, if call < 10 then "d1" else "d2", true, [])
  }

  /** Two cycles create two dramas, and the task knows neither. */
  lemma LostDramaIsCreatedAgain()
    ensures var w := World(NativeTask(), NativeTask(), NativeTask(), []);
      var last := Cycles(w, LateFailures, [(LinkReadyTarget, 0.0), (LinkReadyTarget, 0.0)]);
      && w.log <= last.log && last.stored == NativeTask()
      && Created(Since(w, last), TheDrama) == ["d1", "d2"]
  {
    hide Cycle, Created;
    var w := World(NativeTask(), NativeTask(), NativeTask(), []);
    var turn: (RunTarget, Time) := (LinkReadyTarget, 0.0);
    LosingCycle(w, LateFailures, 0.0, "link");
    var between := Cycle(w, LateFailures, LinkReadyTarget, 0.0);
    LosingCycle(between, LateFailures, 0.0, "link");
    var last := Cycle(between, LateFailures, LinkReadyTarget, 0.0);
    assert [turn, turn][..1] == [turn];
    assert |[turn][..0]| == 0;
    assert Cycles(w, LateFailures, [turn]) == between;
    assert Cycles(w, LateFailures, [turn, turn]) == last;
    SinceGrows(w, between, last);
    CreatedAdds(Since(w, between), Since(between, last), TheDrama);
  }
}
