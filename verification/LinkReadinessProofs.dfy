/** What one execution of the link stages does, call by call. */
module LinkReadinessProofs {
  import opened Basics
  import opened LinkReadiness

  // ---- things created outside ----

  /** What a task can have created for it. */
  datatype Slot = TheDrama | ConfigFor(linkType: string)

  function IdOf(row: Row, slot: Slot): string {
    match slot
    case TheDrama => row.dramaId
    case ConfigFor(linkType) => ConfigOf(row.configs, linkType)
  }

  predicate Asks(event: Event, slot: Slot) {
    match event
    case AssetCall(_, _) => slot == TheDrama
    case ConfigCall(_, linkType, _, _) => slot == ConfigFor(linkType)
    case _ => false
  }

  function IdFrom(event: Event): Option<Id> {
    match event
    case AssetCall(_, id) => id
    case ConfigCall(_, _, _, id) => id
    case _ => None
  }

  /** The ids created for a slot. */
  function Created(events: seq<Event>, slot: Slot): seq<string> {
    if events == [] then []
    else
      var last := events[|events| - 1];
      Created(events[..|events| - 1], slot) + if Asks(last, slot) && IdFrom(last).Some? then [IdFrom(last).value]
          else []
  }

  lemma CreatedOneMore(events: seq<Event>, event: Event, slot: Slot)
    ensures Created(events + [event], slot)
      == Created(events, slot) + if Asks(event, slot) && IdFrom(event).Some? then [IdFrom(event).value] else []
  {
    assert (events + [event])[..|events|] == events;
  }

  lemma {:induction false} CreatedAdds(x: seq<Event>, y: seq<Event>, slot: Slot)
    ensures Created(x + y, slot) == Created(x, slot) + Created(y, slot)
    decreases |y|
  {
    if y == [] {
      assert x + y == x;
    } else {
      assert (x + y)[..|x + y| - 1] == x + y[..|y| - 1];
      CreatedAdds(x, y[..|y| - 1], slot);
    }
  }

  /** From lacking an id to having one takes its one creation; otherwise nothing is created. */
  function Gained(before: string, after: string): seq<string> {
    if before == "" && after != "" then [after] else []
  }

  ghost predicate AdvancedAt(before: Row, after: Row, events: seq<Event>, slot: Slot) {
    && Created(events, slot) == Gained(IdOf(before, slot), IdOf(after, slot))
    && (IdOf(before, slot) != "" ==> IdOf(after, slot) == IdOf(before, slot) && forall e :: e in events ==>
      !Asks(e, slot))
  }

  /** The ids a task gains are the ids created; what it has is kept and not asked for again. */
  ghost predicate Advanced(before: Row, after: Row, events: seq<Event>) {
    forall slot :: AdvancedAt(before, after, events, slot)
  }

  // ---- an execution ----

  predicate Outside(event: Event) {
    event.PrepareCall? || event.AssetCall? || event.ConfigCall?
  }

  /** Creation calls carry the task's own data: primary link, drama id, and each type with its own non-empty link. */
  predicate Proper(row: Row, event: Event) {
    match event
    case AssetCall(link, _) => PrimaryLink(row.links) == Some(link)
    case ConfigCall(dramaId, linkType, link, _) => dramaId == row.dramaId && link != "" && (linkType, link) in row.links
    case _ => true
  }

  ghost predicate AllOk(events: seq<Event>) {
    forall e :: e in events ==> Succeeded(e)
  }

  /** Once a call failed, nothing outside is called any more. */
  ghost predicate StopsAtFailure(events: seq<Event>) {
    forall i, j :: 0 <= i < j < |events| && !Succeeded(events[i]) ==> !Outside(events[j])
  }

  /** Every row written is accounted for by the calls before it. */
  ghost predicate WritesKnown(start: Row, events: seq<Event>) {
    forall i :: 0 <= i < |events| && events[i].UpdateCall? ==> Advanced(start, events[i].row, events[..i])
  }

  /** Each new id is written, or failed to be, before anything else is called. */
  ghost predicate SavesNext(events: seq<Event>) {
    forall i :: 0 <= i < |events| && IdFrom(events[i]).Some? ==> i + 1 < |events| && events[i + 1].UpdateCall?
  }

  /** Links only change by being extracted, and validated links are not extracted again. */
  ghost predicate LinksKept(start: Row, task: Row, events: seq<Event>) {
    && (LinksDone(start) ==> forall e :: e in events ==> !e.PrepareCall?)
    && (|| (task.validated == start.validated && task.links == start.links)
        || PrepareCall(Some((task.validated, task.links))) in events)
  }

  ghost predicate Executed(start: Row, task: Row, events: seq<Event>) {
    && task.endType == start.endType && task.availableTime == start.availableTime
    && Advanced(start, task, events)
    && (forall e :: e in events ==> Proper(task, e))
    && StopsAtFailure(events)
    && WritesKnown(start, events)
    && SavesNext(events)
    && LinksKept(start, task, events)
    && forall e :: e in events ==> !e.CommitCall? && !e.RollbackCall?
  }

  /** The row after the calls: the last one written, with extracted links stored on the way. */
  function LastSaved(stored: Row, events: seq<Event>): Row {
    if events == [] then stored
    else
      var before := LastSaved(stored, events[..|events| - 1]);
      match events[|events| - 1]
      case UpdateCall(row, ok) => if ok then row else before
      case PrepareCall(Some(found)) => before.(validated := found.0, links := found.1)
      case _ => before
  }

  function Since(first: World, w: World): seq<Event>
    requires |first.log| <= |w.log|
  {
    w.log[|first.log|..]
  }

  /** `w` is on its way from `first`. */
  ghost predicate Going(first: World, w: World) {
    && first.log <= w.log
    && Executed(first.task, w.task, Since(first, w))
    && w.stored == LastSaved(first.stored, Since(first, w))
    && w.committed == first.committed
  }

  // ---- one call more ----

  /** The same task; its stage and state may differ. */
  predicate SameTask(before: Row, after: Row) {
    after == before.(stage := after.stage, state := after.state)
  }

  lemma AdvancedStays(start: Row, before: Row, after: Row, events: seq<Event>, event: Event)
    requires Advanced(start, before, events) && SameTask(before, after) && !event.AssetCall? && !event.ConfigCall?
    ensures Advanced(start, after, events) && Advanced(start, after, events + [event])
  {
    hide Created;
    forall slot ensures AdvancedAt(start, after, events, slot) && AdvancedAt(start, after, events + [event], slot) {
      assert AdvancedAt(start, before, events, slot);
      CreatedOneMore(events, event, slot);
    }
  }

  lemma StopsOneMore(events: seq<Event>, event: Event)
    requires StopsAtFailure(events) && (Outside(event) ==> AllOk(events))
    ensures StopsAtFailure(events + [event])
  {
    var all := events + [event];
    forall i, j | 0 <= i < j < |all| && !Succeeded(all[i]) ensures !Outside(all[j]) {
      assert all[i] == events[i] && events[i] in events;
    }
  }

  lemma WritesOneMore(start: Row, events: seq<Event>, event: Event)
    requires WritesKnown(start, events) && (event.UpdateCall? ==> Advanced(start, event.row, events))
    ensures WritesKnown(start, events + [event])
  {
    hide Advanced;
    var all := events + [event];
    forall i | 0 <= i < |all| && all[i].UpdateCall? ensures Advanced(start, all[i].row, all[..i]) {
      assert all[..i] == events[..i];
      assert events[..|events|] == events;
    }
  }

  lemma SavesOneMore(events: seq<Event>, event: Event)
    requires SavesNext(events) && IdFrom(event).None?
    ensures SavesNext(events + [event])
  {
  }

  /** Storage calls create nothing. */
  lemma StorageStays(start: Row, before: Row, after: Row, events: seq<Event>, event: Event)
    requires Executed(start, before, events) && SameTask(before, after)
    requires event.OtherCall? || (event.UpdateCall? && event.row == after)
    ensures Executed(start, after, events + [event])
  {
    hide Advanced, StopsAtFailure, WritesKnown, SavesNext;
    AdvancedStays(start, before, after, events, event);
    StopsOneMore(events, event);
    WritesOneMore(start, events, event);
    SavesOneMore(events, event);
    forall e | e in events + [event] ensures Proper(after, e) && !e.CommitCall? && !e.RollbackCall? {
      assert e in events ==> Proper(before, e);
    }
  }

  lemma LastSavedOneMore(stored: Row, events: seq<Event>, event: Event)
    ensures LastSaved(stored, events + [event]) ==
      match event
      case UpdateCall(row, ok) => if ok then row else LastSaved(stored, events)
      case PrepareCall(Some(found)) => LastSaved(stored, events).(validated := found.0, links := found.1)
      case _ => LastSaved(stored, events)
  {
    assert (events + [event])[..|events|] == events;
  }

  lemma OneMoreSince(first: World, w: World, event: Event)
    requires first.log <= w.log
    ensures first.log <= w.log + [event]
    ensures (w.log + [event])[|first.log|..] == Since(first, w) + [event]
  {
  }

  lemma TaskStays(first: World, w: World, task: Row)
    requires Going(first, w) && SameTask(w.task, task)
    ensures Going(first, w.(task := task))
  {
    hide Created, StopsAtFailure, WritesKnown, SavesNext, LastSaved;
    var events := Since(first, w);
    AdvancedStays(first.task, w.task, task, events, RollbackCall);
    forall e | e in events ensures Proper(task, e) {
      assert Proper(w.task, e);
    }
  }

  lemma OtherGoes(first: World, w: World, o: Oracle)
    requires Going(first, w)
    ensures Going(first, Other(w, o))
    ensures Since(first, Other(w, o)) == Since(first, w) + [OtherCall(Next(w, o).ok)]
  {
    hide Executed, LastSaved;
    var event := OtherCall(Next(w, o).ok);
    OneMoreSince(first, w, event);
    StorageStays(first.task, w.task, w.task, Since(first, w), event);
    LastSavedOneMore(first.stored, Since(first, w), event);
  }

  lemma SaveGoes(first: World, w: World, o: Oracle)
    requires Going(first, w)
    ensures Going(first, Save(w, o))
    ensures Since(first, Save(w, o)) == Since(first, w) + [UpdateCall(w.task, Next(w, o).ok)]
  {
    hide Executed, LastSaved;
    var event := UpdateCall(w.task, Next(w, o).ok);
    OneMoreSince(first, w, event);
    StorageStays(first.task, w.task, w.task, Since(first, w), event);
    LastSavedOneMore(first.stored, Since(first, w), event);
  }

  // ---- one creation more ----

  /** `after` is `before` with an id for the slot. */
  ghost predicate Received(before: Row, after: Row, slot: Slot, id: Id) {
    && IdOf(before, slot) == "" && IdOf(after, slot) == id
    && (forall other :: other != slot ==> IdOf(after, other) == IdOf(before, other))
    && after == before.(dramaId := after.dramaId, configs := after.configs, stage := after.stage, state := after.state)
  }

  lemma AdvancedByCreation(start: Row, before: Row, after: Row, events: seq<Event>, call: Event, slot: Slot)
    requires Advanced(start, before, events) && Asks(call, slot) && IdFrom(call).Some?
    requires Received(before, after, slot, IdFrom(call).value)
    ensures Advanced(start, after, events + [call])
  {
    hide Created;
    forall other ensures AdvancedAt(start, after, events + [call], other) {
      assert AdvancedAt(start, before, events, other) && AdvancedAt(start, before, events, slot);
      CreatedOneMore(events, call, other);
    }
  }

  lemma AdvancedByFailure(start: Row, before: Row, events: seq<Event>, call: Event, slot: Slot)
    requires Advanced(start, before, events) && Asks(call, slot) && IdFrom(call).None? && IdOf(before, slot) == ""
    ensures Advanced(start, before, events + [call])
  {
    hide Created;
    forall other ensures AdvancedAt(start, before, events + [call], other) {
      assert AdvancedAt(start, before, events, other) && AdvancedAt(start, before, events, slot);
      CreatedOneMore(events, call, other);
    }
  }

  /** A failed creation ends the calls outside. */
  lemma FailedCreation(start: Row, task: Row, events: seq<Event>, call: Event, slot: Slot)
    requires Executed(start, task, events) && AllOk(events) && Proper(task, call)
    requires Asks(call, slot) && IdFrom(call).None? && IdOf(task, slot) == ""
    ensures Executed(start, task, events + [call])
  {
    hide Advanced, StopsAtFailure, WritesKnown, SavesNext;
    AdvancedByFailure(start, task, events, call, slot);
    StopsOneMore(events, call);
    WritesOneMore(start, events, call);
    SavesOneMore(events, call);
  }

  lemma SavesCreation(events: seq<Event>, call: Event, save: Event)
    requires SavesNext(events) && save.UpdateCall?
    ensures SavesNext(events + [call] + [save])
  {
    var all := events + [call] + [save];
    forall i | 0 <= i < |all| && IdFrom(all[i]).Some? ensures i + 1 < |all| && all[i + 1].UpdateCall? {
      assert i < |events| ==> all[i] == events[i];
    }
  }

  /** A creation that succeeded, and the attempt to write its id down. */
  lemma NewCreation(start: Row, before: Row, after: Row, events: seq<Event>, call: Event, slot: Slot, ok: bool)
    requires Executed(start, before, events) && AllOk(events) && Proper(before, call)
    requires Asks(call, slot) && IdFrom(call).Some? && Received(before, after, slot, IdFrom(call).value)
    requires slot == TheDrama ==> forall e :: e in events ==> !e.ConfigCall?
    ensures Executed(start, after, events + [call] + [UpdateCall(after, ok)])
  {
    hide Advanced, StopsAtFailure, WritesKnown, SavesNext, Received;
    var save := UpdateCall(after, ok);
    AdvancedByCreation(start, before, after, events, call, slot);
    StopsOneMore(events, call);
    StopsOneMore(events + [call], save);
    WritesOneMore(start, events, call);
    WritesOneMore(start, events + [call], save);
    SavesCreation(events, call, save);
    AdvancedStays(start, after, after, events + [call], save);
    ReceivedKeeps(before, after, slot, IdFrom(call).value);
    forall e | e in events + [call] + [save] ensures Proper(after, e) && !e.CommitCall? && !e.RollbackCall? {
      assert e in events ==> Proper(before, e);
    }
  }

  lemma ReceivedKeeps(before: Row, after: Row, slot: Slot, id: Id)
    requires Received(before, after, slot, id)
    ensures after.links == before.links && after.validated == before.validated
    ensures after.endType == before.endType && after.availableTime == before.availableTime
    ensures slot != TheDrama ==> after.dramaId == before.dramaId
  {
    if slot != TheDrama {
      assert IdOf(after, TheDrama) == IdOf(before, TheDrama);
    }
  }

  /** Extraction: links change before anything is created. */
  lemma Extracting(start: Row, before: Row, events: seq<Event>, found: Option<(bool, Links)>, read: Event, after: Row)
    requires Executed(start, before, events) && AllOk(events) && !LinksDone(start)
    requires forall e :: e in events ==> !Outside(e)
    requires found.None? ==> after == before
    requires found.Some? ==> after == before || after == before.(validated := found.value.0, links := found.value.1)
    requires read.OtherCall?
    ensures found.None? ==> Executed(start, after, events + [PrepareCall(found)])
    ensures Executed(start, after, events + [PrepareCall(found)] + [read])
  {
    hide Advanced, StopsAtFailure, WritesKnown, SavesNext;
    var call := PrepareCall(found);
    AdvancedStays(start, before, before, events, call);
    AdvancedStays(start, before, before, events + [call], read);
    AdvancedOfIds(start, before, after, events + [call]);
    AdvancedOfIds(start, before, after, events + [call] + [read]);
    StopsOneMore(events, call);
    StopsOneMore(events + [call], read);
    WritesOneMore(start, events, call);
    WritesOneMore(start, events + [call], read);
    SavesOneMore(events, call);
    SavesOneMore(events + [call], read);
    assert call in events + [call] + [read] && call in events + [call];
  }

  lemma AdvancedOfIds(start: Row, before: Row, after: Row, events: seq<Event>)
    requires Advanced(start, before, events) && after.dramaId == before.dramaId && after.configs == before.configs
    ensures Advanced(start, after, events)
  {
    hide Created;
    forall slot ensures AdvancedAt(start, after, events, slot) {
      assert AdvancedAt(start, before, events, slot);
      assert IdOf(after, slot) == IdOf(before, slot);
    }
  }
}
