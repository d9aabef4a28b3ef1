/** What each stage of the link preparation keeps, and what a whole execution comes to. */
module LinkReadinessStages {
  import opened Basics
  import opened LinkReadiness
  import opened LinkReadinessProofs

  ghost predicate NoneOutside(events: seq<Event>) {
    forall e :: e in events ==> !Outside(e)
  }

  ghost predicate NoConfigCalls(events: seq<Event>) {
    forall e :: e in events ==> !e.ConfigCall?
  }

  /** A stage ended: all well and stored, or at a failed call. */
  ghost predicate Ended(first: World, before: World, after: World, end: StageEnd) {
    && Going(first, after) && before.log <= after.log
    && (end == Done ==> AllOk(Since(first, after)) && after.stored == after.task)
    && (end.Stopped? ==> end.outcome == ManualReview || end.outcome == Raised)
    && (end == Stopped(ManualReview) ==> after.stored == after.task && after.task.state == InReview)
    && (end.Stopped? ==> !AllOk(Since(first, after)) || PrimaryLink(after.task.links).None?)
  }

  /** Only the stage and the state of the task changed, and only storage was called. */
  ghost predicate OnlyStored(before: World, after: World) {
    && before.log <= after.log && SameTask(before.task, after.task)
    && NoneOutside(after.log[|before.log|..])
  }

  lemma SinceGrows(first: World, before: World, after: World)
    requires first.log <= before.log <= after.log
    ensures Since(first, before) <= Since(first, after)
    ensures Since(first, after) == Since(first, before) + after.log[|before.log|..]
    ensures !AllOk(Since(first, before)) ==> !AllOk(Since(first, after))
  {
    var (x, y) := (Since(first, before), Since(first, after));
    assert y == x + after.log[|before.log|..];
    if e :| e in x && !Succeeded(e) {
      assert e in y;
    }
  }

  lemma OnlyStoredTwice(first: World, second: World, third: World)
    requires OnlyStored(first, second) && OnlyStored(second, third)
    ensures OnlyStored(first, third)
  {
    assert third.log[|first.log|..] == second.log[|first.log|..] + third.log[|second.log|..];
  }

  lemma OnlyStoredGrows(before: World, after: World)
    requires OnlyStored(before, after)
    ensures before.log <= after.log && SameTask(before.task, after.task)
  {
  }

  lemma FailedLast(first: World, w: World)
    requires first.log < w.log && !Went(w)
    ensures !AllOk(Since(first, w))
  {
    assert Since(first, w)[|Since(first, w)| - 1] == w.log[|w.log| - 1];
  }

  lemma WentWell(first: World, before: World, w: World, event: Event)
    requires first.log <= before.log && AllOk(Since(first, before)) && w.log == before.log + [event] && Succeeded(event)
    ensures first.log <= w.log && AllOk(Since(first, w))
  {
    OneMoreSince(first, before, event);
  }

  lemma SaveOnlyStores(w: World, o: Oracle, stage: Stage)
    ensures OnlyStored(w, Save(At(w, stage), o)) && OnlyStored(w, Other(w, o))
  {
    assert w.log <= Save(At(w, stage), o).log && w.log <= Other(w, o).log;
  }

  /** A stage that ends in review names itself. */
  predicate ReviewedAt(after: World, end: StageEnd, stage: Stage) {
    end == Stopped(ManualReview) ==> after.task.stage == stage
  }

  lemma FailureGoes(first: World, w: World, o: Oracle, stage: Stage)
    requires Going(first, w) && (AllOk(Since(first, w)) ==> PrimaryLink(w.task.links).None?)
    ensures var (after, end) := StageFailure(w, o, stage);
      && Ended(first, w, after, end) && OnlyStored(w, after) && end.Stopped?
      && ReviewedAt(after, end, stage)
      && (end == Stopped(ManualReview) && AllOk(Since(first, w)) ==> AllOk(Since(first, after)))
  {
    hide Going, AllOk, OnlyStored, Since;
    OtherGoes(first, w, o);
    GoingGrows(first, w);
    var recorded := Other(w, o);
    SaveOnlyStores(w, o, stage);
    if Went(recorded) {
      var marked := Marked(At(recorded, stage), InReview);
      TaskStays(first, recorded, marked.task);
      SaveGoes(first, marked, o);
      var saved := Save(marked, o);
      MarkOnlyStores(recorded, o, stage);
      OnlyStoredTwice(w, recorded, saved);
      assert first.log <= w.log <= recorded.log <= saved.log;
      SinceGrows(first, w, saved);
      if !Went(saved) {
        FailedLast(first, saved);
      } else if AllOk(Since(first, w)) {
        WentWell(first, w, recorded, recorded.log[|recorded.log| - 1]);
        WentWell(first, recorded, saved, saved.log[|saved.log| - 1]);
      }
    } else {
      FailedLast(first, recorded);
    }
  }

  lemma GoingGrows(first: World, w: World)
    requires Going(first, w)
    ensures first.log <= w.log
  {
  }

  lemma MarkOnlyStores(w: World, o: Oracle, stage: Stage)
    ensures OnlyStored(w, Save(Marked(At(w, stage), InReview), o))
  {
    assert w.log <= Save(Marked(At(w, stage), InReview), o).log;
  }

  /** A stage failure on the way of a stage that started at `w`. */
  lemma FailureAfter(first: World, w: World, failed: World, o: Oracle, stage: Stage)
    requires Going(first, failed) && first.log <= w.log <= failed.log && !AllOk(Since(first, failed))
    ensures var (after, end) := StageFailure(failed, o, stage);
      && Ended(first, w, after, end) && OnlyStored(failed, after) && end.Stopped? && !AllOk(Since(first, after))
      && ReviewedAt(after, end, stage)
  {
    hide Going, AllOk, StageFailure;
    FailureGoes(first, failed, o, stage);
    SinceGrows(first, failed, StageFailure(failed, o, stage).0);
  }

  /** Storing and recording at the end of a stage, once the storing itself is accounted for. */
  lemma FinishGoes(first: World, w: World, o: Oracle, stage: Stage)
    requires first.log <= w.log && AllOk(Since(first, w))
    requires Going(first, Save(At(w, stage), o))
    ensures var (after, end) := FinishStage(w, o, stage);
      && Ended(first, w, after, end) && OnlyStored(w, after) && ReviewedAt(after, end, stage)
      && (end == Done ==> after.task == w.task.(stage := stage))
      && (end.Stopped? ==> !AllOk(Since(first, after)))
  {
    hide Going, AllOk, StageFailure, OnlyStored, Since;
    var saved := Save(At(w, stage), o);
    SaveOnlyStores(w, o, stage);
    assert first.log <= w.log <= saved.log;
    if !Went(saved) {
      FailedLast(first, saved);
      FailureAfter(first, w, saved, o, stage);
      OnlyStoredTwice(w, saved, StageFailure(saved, o, stage).0);
    } else {
      WentWell(first, w, saved, saved.log[|saved.log| - 1]);
      OtherGoes(first, saved, o);
      var finished := Other(saved, o);
      SaveOnlyStores(saved, o, stage);
      OnlyStoredTwice(w, saved, finished);
      assert w.log <= saved.log <= finished.log;
      if !Went(finished) {
        FailedLast(first, finished);
        FailureAfter(first, w, finished, o, stage);
        OnlyStoredTwice(w, finished, StageFailure(finished, o, stage).0);
      } else {
        WentWell(first, saved, finished, finished.log[|finished.log| - 1]);
      }
    }
  }

  lemma PassGoes(first: World, w: World, o: Oracle, stage: Stage)
    requires Going(first, w) && AllOk(Since(first, w))
    ensures var (after, end) := PassStage(w, o, stage);
      && Ended(first, w, after, end) && OnlyStored(w, after)
      && after.task == w.task.(stage := stage) && (end.Stopped? ==> !AllOk(Since(first, after)))
  {
    hide Executed, LastSaved;
    TaskStays(first, w, At(w, stage).task);
    SaveGoes(first, At(w, stage), o);
    assert UpdateCall(At(w, stage).task, Next(w, o).ok) in Since(first, Save(At(w, stage), o));
  }

  // ---- links ----

  lemma PrepareGoes(first: World, w: World, o: Oracle)
    requires Going(first, w) && AllOk(Since(first, w)) && NoneOutside(Since(first, w)) && !LinksDone(first.task)
    ensures var prepared := Prepare(w, o);
      && first.log <= w.log <= prepared.log
      && (!Went(prepared) ==> Going(first, prepared) && !AllOk(Since(first, prepared)))
      && (Went(prepared) ==> var read := Other(prepared, o); Going(first, read) && Going(first, Reloaded(read)))
  {
    hide Executed, LastSaved;
    var prepared := Prepare(w, o);
    var found := if Next(w, o).ok then Some((Next(w, o).validated, Next(w, o).links)) else None;
    var call := PrepareCall(found);
    var read := Other(prepared, o);
    var record := OtherCall(Next(prepared, o).ok);
    OneMoreSince(first, w, call);
    OneMoreSince(first, prepared, record);
    LastSavedOneMore(first.stored, Since(first, w), call);
    LastSavedOneMore(first.stored, Since(first, prepared), record);
    Extracting(first.task, w.task, Since(first, w), found, record, w.task);
    if found.Some? {
      var after := w.task.(validated := found.value.0, links := found.value.1);
      Extracting(first.task, w.task, Since(first, w), found, record, after);
      TaskStays(first, read.(task := after), Reloaded(read).task);
    } else {
      FailedLast(first, prepared);
    }
  }

  lemma StartGoes(w: World)
    ensures Going(w, w) && Since(w, w) == []
  {
    forall slot ensures AdvancedAt(w.task, w.task, [], slot) {
    }
  }

  /** Nothing was created or asked to be. */
  ghost predicate NoCreations(events: seq<Event>) {
    forall e :: e in events ==> !e.AssetCall? && !e.ConfigCall?
  }

  /** What the stage of the links leaves: nothing created, and without a failed call the links are stored. */
  ghost predicate LinksEnsured(w: World, after: World, end: StageEnd) {
    && Ended(w, w, after, end)
    && NoCreations(Since(w, after))
    && after.task.dramaId == w.task.dramaId && after.task.configs == w.task.configs
    && (LinksDone(w.task) ==> OnlyStored(w, after))
    && (end.Stopped? ==> !AllOk(Since(w, after)))
    && (end == Done ==> after.task.stage == Extraction)
    && ReviewedAt(after, end, Extraction)
  }

  /** Only storage was called after `mid`. */
  lemma LinksEnsuredAfter(w: World, mid: World, after: World, end: StageEnd)
    requires w.log <= mid.log && NoCreations(Since(w, mid)) && OnlyStored(mid, after) && Ended(w, w, after, end)
    requires mid.task.dramaId == w.task.dramaId && mid.task.configs == w.task.configs && !LinksDone(w.task)
    requires (end.Stopped? ==> !AllOk(Since(w, after))) && (end == Done ==> after.task.stage == Extraction)
    requires ReviewedAt(after, end, Extraction)
    ensures LinksEnsured(w, after, end)
  {
    hide Ended, AllOk;
    SinceGrows(w, mid, after);
  }

  lemma LinksFail(w: World, failed: World, o: Oracle)
    requires Going(w, failed) && w.log <= failed.log && NoCreations(Since(w, failed)) && !AllOk(Since(w, failed))
    requires failed.task.dramaId == w.task.dramaId && failed.task.configs == w.task.configs && !LinksDone(w.task)
    ensures var (after, end) := StageFailure(failed, o, Extraction); LinksEnsured(w, after, end)
  {
    hide Going, AllOk, StageFailure, LinksEnsured;
    FailureAfter(w, w, failed, o, Extraction);
    LinksEnsuredAfter(w, failed, StageFailure(failed, o, Extraction).0, StageFailure(failed, o, Extraction).1);
  }

  lemma BeginFails(w: World, begun: World)
    requires Going(w, begun) && !AllOk(Since(w, begun)) && !LinksDone(w.task)
    requires begun.task == w.task && NoCreations(Since(w, begun))
    ensures LinksEnsured(w, begun, Stopped(Raised))
  {
  }

  /** The extraction is refused: the task goes to review. */
  lemma RefusalGoes(w: World, prepared: World, o: Oracle)
    requires Going(w, prepared) && !AllOk(Since(w, prepared)) && NoCreations(Since(w, prepared)) && !LinksDone(w.task)
    requires prepared.task.dramaId == w.task.dramaId && prepared.task.configs == w.task.configs
    ensures var recorded := Other(prepared, o);
      var saved := Save(Marked(At(recorded, Extraction), InReview), o);
      if !Went(recorded) then
        var (after, end) := StageFailure(recorded, o, Extraction); LinksEnsured(w, after, end)
      else if !Went(saved) then
        var (after, end) := StageFailure(saved, o, Extraction); LinksEnsured(w, after, end)
      else LinksEnsured(w, saved, Stopped(ManualReview))
  {
    hide Going, AllOk, StageFailure, LinksEnsured, Since;
    var recorded := Other(prepared, o);
    OtherGoes(w, prepared, o);
    GoingGrows(w, prepared);
    SinceGrows(w, prepared, recorded);
    if !Went(recorded) {
      LinksFail(w, recorded, o);
    } else {
      var marked := Marked(At(recorded, Extraction), InReview);
      TaskStays(w, recorded, marked.task);
      SaveGoes(w, marked, o);
      var saved := Save(marked, o);
      MarkOnlyStores(recorded, o, Extraction);
      SaveOnlyStores(prepared, o, Extraction);
      OnlyStoredTwice(prepared, recorded, saved);
      SinceGrows(w, recorded, saved);
      if !Went(saved) {
        LinksFail(w, saved, o);
      } else {
        LinksEnsuredAfter(w, prepared, saved, Stopped(ManualReview));
      }
    }
  }

  /** The links were found and read back. */
  lemma ReadGoes(w: World, read: World, o: Oracle)
    requires Going(w, Reloaded(read)) && AllOk(Since(w, read)) && NoCreations(Since(w, read)) && !LinksDone(w.task)
    requires read.task.dramaId == w.task.dramaId && read.task.configs == w.task.configs
    ensures var (after, end) := FinishStage(Reloaded(read), o, Extraction); LinksEnsured(w, after, end)
  {
    hide Going, AllOk, FinishStage, LinksEnsured, Executed, OnlyStored;
    var found := Reloaded(read);
    GoingGrows(w, found);
    TaskStays(w, found, At(found, Extraction).task);
    SaveGoes(w, At(found, Extraction), o);
    FinishGoes(w, found, o, Extraction);
    var (after, end) := FinishStage(found, o, Extraction);
    GoingGrows(w, after);
    LinksEnsuredAfter(w, found, after, end);
  }

  /** Every way the stage can go once the extraction was called. */
  lemma PreparedGoes(w: World, begun: World, o: Oracle)
    requires Going(w, begun) && AllOk(Since(w, begun)) && NoneOutside(Since(w, begun)) && !LinksDone(w.task)
    requires begun.task == w.task
    ensures var prepared := Prepare(begun, o);
      var recorded := Other(prepared, o);
      && (!Went(prepared) ==>
        var (after, end) := StageFailure(prepared, o, Extraction); LinksEnsured(w, after, end))
      && (Went(prepared) ==>
        var (after, end) :=
          if Went(recorded) then FinishStage(Reloaded(recorded), o, Extraction)
          else StageFailure(recorded, o, Extraction);
        LinksEnsured(w, after, end))
  {
    hide Going, AllOk, StageFailure, LinksEnsured, FinishStage, LinksDone, Reloaded;
    PrepareGoes(w, begun, o);
    var prepared := Prepare(begun, o);
    OneMoreSince(w, begun, prepared.log[|prepared.log| - 1]);
    OneMoreSince(w, prepared, OtherCall(Next(prepared, o).ok));
    if !Went(prepared) {
      LinksFail(w, prepared, o);
    } else {
      WentWell(w, begun, prepared, prepared.log[|prepared.log| - 1]);
      var read := Other(prepared, o);
      if !Went(read) {
        FailedLast(w, read);
        LinksFail(w, read, o);
      } else {
        WentWell(w, prepared, read, read.log[|read.log| - 1]);
        ReadGoes(w, read, o);
      }
    }
  }

  lemma ExtractionGoes(w: World, o: Oracle)
    requires !LinksDone(w.task)
    ensures var (after, end) := EnsureLinks(w, o); LinksEnsured(w, after, end)
  {
    hide Going, AllOk, StageFailure, LinksEnsured, FinishStage, LinksDone, Reloaded;
    StartGoes(w);
    var begun := Other(w, o);
    OtherGoes(w, w, o);
    if !Went(begun) {
      FailedLast(w, begun);
      BeginFails(w, begun);
      return;
    }
    WentWell(w, w, begun, begun.log[|begun.log| - 1]);
    PrepareGoes(w, begun, o);
    PreparedGoes(w, begun, o);
    var prepared := Prepare(begun, o);
    if !Went(prepared) {
      RefusalGoes(w, prepared, o);
    }
  }

  lemma EnsureLinksGoes(w: World, o: Oracle)
    ensures var (after, end) := EnsureLinks(w, o); LinksEnsured(w, after, end)
  {
    hide Going;
    StartGoes(w);
    if LinksDone(w.task) {
      PassGoes(w, w, o, Extraction);
    } else {
      ExtractionGoes(w, o);
    }
  }

  // ---- drama ----

  /** What the stage of the drama leaves: a drama id, unless a call failed or there is no link. */
  ghost predicate DramaEnsured(first: World, w: World, after: World, end: StageEnd) {
    && Ended(first, w, after, end)
    && NoConfigCalls(Since(first, after))
    && after.task.links == w.task.links && after.task.validated == w.task.validated
    && after.task.configs == w.task.configs
    && (w.task.dramaId != "" ==> OnlyStored(w, after))
    && (end == Done ==> after.task.dramaId != "")
    && ReviewedAt(after, end, DeliveryDrama)
    && (end == Stopped(ManualReview) ==> AssetAsked(Since(first, after)) || AllOk(Since(first, after)))
  }

  predicate AssetAsked(events: seq<Event>) {
    exists e :: e in events && e.AssetCall?
  }

  lemma AssetAskedGrows(first: World, w: World, after: World)
    requires first.log <= w.log <= after.log && AssetAsked(Since(first, w))
    ensures AssetAsked(Since(first, after))
  {
    SinceGrows(first, w, after);
    var e :| e in Since(first, w) && e.AssetCall?;
    assert e in Since(first, after);
  }

  /** Only storage was called after the creation. */
  lemma DramaEnsuredAfter(first: World, w: World, made: World, after: World, end: StageEnd)
    requires w.task.dramaId == "" && first.log <= made.log && NoConfigCalls(Since(first, made))
    requires OnlyStored(made, after) && Ended(first, w, after, end)
    requires made.task.links == w.task.links && made.task.validated == w.task.validated
    requires made.task.configs == w.task.configs && (end == Done ==> made.task.dramaId != "")
    requires ReviewedAt(after, end, DeliveryDrama)
    requires end == Stopped(ManualReview) ==> AssetAsked(Since(first, after)) || AllOk(Since(first, after))
    ensures DramaEnsured(first, w, after, end)
  {
    hide Ended, AllOk, Going;
    SinceGrows(first, made, after);
  }

  lemma AssetReceived(w: World, o: Oracle, link: string)
    requires w.task.dramaId == "" && Next(w, o).ok
    ensures Received(w.task, MakeAsset(w, o, link).task, TheDrama, Next(w, o).id)
  {
  }

  /** The drama was created; its id may or may not be stored. */
  lemma AssetGoes(first: World, w: World, o: Oracle, link: string)
    requires Going(first, w) && AllOk(Since(first, w)) && NoConfigCalls(Since(first, w)) && w.task.dramaId == ""
    requires PrimaryLink(w.task.links) == Some(link)
    ensures var made := MakeAsset(w, o, link);
      && first.log <= w.log <= made.log && NoConfigCalls(Since(first, made)) && AssetAsked(Since(first, made))
      && (!Went(made) ==> Going(first, made) && !AllOk(Since(first, made)))
      && (Went(made) ==> AllOk(Since(first, made)) && Going(first, Save(made, o)))
  {
    hide Executed, LastSaved, Received;
    var made := MakeAsset(w, o, link);
    var call := AssetCall(link, if Next(w, o).ok then Some(Next(w, o).id) else None);
    OneMoreSince(first, w, call);
    assert call in Since(first, made);
    LastSavedOneMore(first.stored, Since(first, w), call);
    if Next(w, o).ok {
      var save := UpdateCall(made.task, Next(made, o).ok);
      AssetReceived(w, o, link);
      NewCreation(first.task, w.task, made.task, Since(first, w), call, TheDrama, Next(made, o).ok);
      OneMoreSince(first, made, save);
      LastSavedOneMore(first.stored, Since(first, made), save);
      WentWell(first, w, made, call);
    } else {
      FailedCreation(first.task, w.task, Since(first, w), call, TheDrama);
      FailedLast(first, made);
    }
  }

  lemma CreatingDramaGoes(first: World, w: World, begun: World, o: Oracle, link: string)
    requires Going(first, begun) && AllOk(Since(first, begun)) && NoConfigCalls(Since(first, begun))
    requires begun.task == w.task && w.task.dramaId == "" && PrimaryLink(w.task.links) == Some(link)
    requires first.log <= w.log <= begun.log
    ensures var made := MakeAsset(begun, o, link);
      var (after, end) := if Went(made) then FinishStage(made, o, DeliveryDrama)
          else StageFailure(made, o, DeliveryDrama);
      DramaEnsured(first, w, after, end)
  {
    hide Going, AllOk, StageFailure, FinishStage, OnlyStored, DramaEnsured, NoConfigCalls, Since;
    AssetGoes(first, begun, o, link);
    var made := MakeAsset(begun, o, link);
    if Went(made) {
      FinishGoes(first, made, o, DeliveryDrama);
      OnlyStoredGrows(made, FinishStage(made, o, DeliveryDrama).0);
      AssetAskedGrows(first, made, FinishStage(made, o, DeliveryDrama).0);
      DramaEnsuredAfter(first, w, made, FinishStage(made, o, DeliveryDrama).0, FinishStage(made, o, DeliveryDrama).1);
    } else {
      FailureAfter(first, w, made, o, DeliveryDrama);
      OnlyStoredGrows(made, StageFailure(made, o, DeliveryDrama).0);
      AssetAskedGrows(first, made, StageFailure(made, o, DeliveryDrama).0);
      DramaEnsuredAfter(first, w, made, StageFailure(made, o, DeliveryDrama).0, StageFailure(made, o, DeliveryDrama).1);
    }
  }

  lemma EnsureDramaGoes(first: World, w: World, o: Oracle)
    requires Going(first, w) && AllOk(Since(first, w)) && NoConfigCalls(Since(first, w))
    ensures var (after, end) := EnsureDeliveryDrama(w, o); DramaEnsured(first, w, after, end)
  {
    hide Going, AllOk, StageFailure, FinishStage, OnlyStored, Since, PrimaryLink;
    GoingGrows(first, w);
    if w.task.dramaId != "" {
      PassGoes(first, w, o, DeliveryDrama);
      OnlyStoredKeeps(first, w, PassStage(w, o, DeliveryDrama).0);
    } else {
      var begun := Other(w, o);
      OtherGoes(first, w, o);
      SaveOnlyStores(w, o, DeliveryDrama);
      OnlyStoredKeeps(first, w, begun);
      if !Went(begun) {
        FailedLast(first, begun);
      } else {
        WentWell(first, w, begun, begun.log[|begun.log| - 1]);
        match PrimaryLink(w.task.links)
        case None =>
          FailureGoes(first, begun, o, DeliveryDrama);
          DramaEnsuredAfter(first, w, begun, StageFailure(begun, o, DeliveryDrama).0,
              StageFailure(begun, o, DeliveryDrama).1);
        case Some(link) =>
          CreatingDramaGoes(first, w, begun, o, link);
      }
    }
  }

  lemma OnlyStoredKeeps(first: World, w: World, after: World)
    requires first.log <= w.log && NoConfigCalls(Since(first, w)) && OnlyStored(w, after)
    ensures NoConfigCalls(Since(first, after))
  {
    SinceGrows(first, w, after);
  }
}
