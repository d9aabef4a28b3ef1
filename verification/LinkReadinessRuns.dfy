/** Whole executions, worker cycles that start from the stored row, and runs of cycles. */
module LinkReadinessRuns {
  import opened Basics
  import opened LinkReadiness
  import opened LinkReadinessProofs
  import opened LinkReadinessStages
  import opened LinkReadinessConfigs

  // ---- one execution ----

  function Goal(target: RunTarget): Outcome {
    if target == LinkExtraction then ExtractionDone else AllLinksReady
  }

  /** The stage a review was sent from, by what had been called. */
  ghost function StoppedAt(events: seq<Event>): Stage {
    if Asked(events) != [] then PromotionConfig
    else if AssetAsked(events) || AllOk(events) then DeliveryDrama
    else Extraction
  }

  /** What an execution comes to. */
  ghost predicate Concluded(w: World, target: RunTarget, now: Time, after: World, outcome: Outcome) {
    && Going(w, after)
    && var (task, events) := (after.task, Since(w, after));
    && Asked(events) <= Missing(task.links, w.task.configs)
    && (outcome in {ManualReview, Raised, if now < w.task.availableTime then Waiting else Goal(target)})
    && (outcome !in {ManualReview, Raised} ==> AllOk(events))
    && (outcome in {ManualReview, Raised} ==>
      !AllOk(events) || (target == LinkReadyTarget && task.endType == Native && PrimaryLink(task.links).None?))
    && (outcome != Raised ==> after.stored == task)
    && (outcome == ExtractionDone ==> task.state == Extracted && task.stage == Extraction)
    && (outcome == AllLinksReady ==> task.state == Ready && task.stage == AllReady)
    && (outcome == Waiting ==> task == w.task.(stage := WaitingTime))
    && (outcome == ManualReview ==> task.state == InReview && task.stage == StoppedAt(events))
    && (outcome == AllLinksReady && task.endType == Native ==>
      task.dramaId != "" && Missing(task.links, task.configs) == [])
    && (now < w.task.availableTime ==> NoneOutside(events) && outcome != ManualReview)
    && (target == LinkExtraction || task.endType == Miniprogram ==> NoCreations(events))
    && (Complete(w.task) ==> NoneOutside(events))
  }

  /** Storing the task at the end. */
  lemma ConcludeGoes(first: World, w: World, o: Oracle, outcome: Outcome)
    requires Going(first, w) && outcome != Raised
    ensures var (after, end) := Conclude(w, o, outcome);
      && Going(first, after) && OnlyStored(w, after) && after.task == w.task
          && after.stored == LastSaved(first.stored, Since(first, after))
      && (end == outcome ==> after.stored == after.task && (AllOk(Since(first, w)) ==> AllOk(Since(first, after))))
      && (end != outcome ==> end == Raised && !AllOk(Since(first, after)))
  {
    hide Executed, LastSaved;
    SaveGoes(first, w, o);
    SaveOnlyStores(w, o, w.task.stage);
    assert w == At(w, w.task.stage);
    var after := Save(w, o);
    if !Went(after) {
      FailedLast(first, after);
    } else if AllOk(Since(first, w)) {
      WentWell(first, w, after, after.log[|after.log| - 1]);
    }
  }

  /** What the two delivery stages leave. */
  ghost predicate Delivered(first: World, w: World, after: World, end: StageEnd) {
    && Ended(first, w, after, end)
    && after.task.links == w.task.links
    && Asked(Since(first, after)) <= Missing(w.task.links, w.task.configs)
    && (w.task.dramaId != "" && Missing(w.task.links, w.task.configs) == [] ==> OnlyStored(w, after))
    && (end == Stopped(ManualReview) ==> after.task.stage == StoppedAt(Since(first, after)))
    && (end == Done ==> after.task.dramaId != "" && Missing(after.task.links, after.task.configs) == [])
  }

  lemma DeliverGoes(first: World, w: World, o: Oracle)
    requires Going(first, w) && AllOk(Since(first, w)) && NoConfigCalls(Since(first, w))
    ensures var (after, end) := Deliver(w, o); Delivered(first, w, after, end)
  {
    hide Going, AllOk, EnsureDeliveryDrama, EnsurePromotionConfigs, OnlyStored, Asked, Missing, PrimaryLink,
        NoConfigCalls;
    EnsureDramaGoes(first, w, o);
    var (drama, end) := EnsureDeliveryDrama(w, o);
    GoingGrows(first, w);
    GoingGrows(first, drama);
    NothingAsked(Since(first, drama));
    if end == Done {
      EnsureConfigsGoes(first, drama, o);
      var (after, last) := EnsurePromotionConfigs(drama, o);
      AskedOnTheWay(first, drama, after);
      if w.task.dramaId != "" && Missing(w.task.links, w.task.configs) == [] {
        OnlyStoredTwice(w, drama, after);
      }
    }
  }

  lemma CreationsAskNothing(w: World, after: World)
    requires w.log <= after.log && NoCreations(Since(w, after))
    ensures NoConfigCalls(Since(w, after)) && Asked(Since(w, after)) == []
  {
    NothingAsked(Since(w, after));
  }

  /** What an execution has called for by the time its stages are over. */
  ghost predicate Called(w: World, mid: World, target: RunTarget) {
    && Going(w, mid)
    && Asked(Since(w, mid)) <= Missing(mid.task.links, w.task.configs)
    && (target == LinkExtraction || w.task.endType == Miniprogram ==> NoCreations(Since(w, mid)))
    && (Complete(w.task) ==> NoneOutside(Since(w, mid)))
  }

  lemma CalledOnlyStored(w: World, mid: World, after: World, target: RunTarget)
    requires Called(w, mid, target) && OnlyStored(mid, after) && Going(w, after)
    ensures Called(w, after, target)
  {
    hide Going, Asked, Missing;
    GoingGrows(w, mid);
    AskedOnTheWay(w, mid, after);
    StoringAsksNothing(mid, after);
    SinceGrows(w, mid, after);
  }

  lemma LinksCalled(w: World, linked: World, end: StageEnd, target: RunTarget)
    requires LinksEnsured(w, linked, end)
    ensures Called(w, linked, target) && linked.task.endType == w.task.endType
    ensures end == Stopped(ManualReview) ==> linked.task.stage == StoppedAt(Since(w, linked))
  {
    hide AllOk, Asked, Missing;
    GoingGrows(w, linked);
    CreationsAskNothing(w, linked);
  }

  /** The stages are over: the task is marked and stored. */
  lemma WrapUp(w: World, mid: World, o: Oracle, target: RunTarget, now: Time, state: TaskState, stage: Stage)
    requires Called(w, mid, target) && AllOk(Since(w, mid)) && now >= w.task.availableTime
    requires target == LinkExtraction ==> stage == Extraction && state == Extracted
    requires target == LinkReadyTarget ==> stage == AllReady && state == Ready
    requires target == LinkReadyTarget && w.task.endType == Native ==>
      mid.task.dramaId != "" && Missing(mid.task.links, mid.task.configs) == []
    ensures var (after, outcome) := Conclude(Marked(At(mid, stage), state), o, Goal(target));
      Concluded(w, target, now, after, outcome)
  {
    hide AllOk, Asked, Missing, OnlyStored, LastSaved, NoneOutside, NoCreations, PrimaryLink, Complete;
    hide Advanced, Proper, StopsAtFailure, WritesKnown, SavesNext, LinksKept;
    var marked := Marked(At(mid, stage), state);
    TaskStays(w, mid, marked.task);
    assert Called(w, marked, target);
    ConcludeGoes(w, marked, o, Goal(target));
    var (after, outcome) := Conclude(marked, o, Goal(target));
    CalledOnlyStored(w, marked, after, target);
  }

  lemma WaitGoes(w: World, o: Oracle, target: RunTarget, now: Time)
    requires now < w.task.availableTime
    ensures var (after, outcome) := Conclude(At(w, WaitingTime), o, Waiting); Concluded(w, target, now, after, outcome)
  {
    hide Executed, Asked, Missing, LastSaved, PrimaryLink, Complete;
    StartGoes(w);
    NothingAsked(Since(w, w));
    var marked := At(w, WaitingTime);
    TaskStays(w, w, marked.task);
    ConcludeGoes(w, marked, o, Waiting);
    var after := Conclude(marked, o, Waiting).0;
    assert Called(w, marked, target);
    CalledOnlyStored(w, marked, after, target);
  }

  lemma DeliveryCalled(w: World, linked: World, delivered: World, end: StageEnd)
    requires LinksEnsured(w, linked, Done) && Delivered(w, linked, delivered, end) && w.task.endType == Native
    ensures Called(w, delivered, LinkReadyTarget)
  {
    hide AllOk, Asked, Missing, Executed, LastSaved;
    GoingGrows(w, linked);
    if Complete(w.task) {
      SinceGrows(w, linked, delivered);
    }
  }

  lemma Stops(w: World, target: RunTarget, now: Time, before: World, after: World, outcome: Outcome)
    requires Called(w, after, target) && Ended(w, before, after, Stopped(outcome)) && now >= w.task.availableTime
    requires AllOk(Since(w, after)) ==> target == LinkReadyTarget && w.task.endType == Native
    requires outcome == ManualReview ==> after.task.stage == StoppedAt(Since(w, after))
    ensures Concluded(w, target, now, after, outcome)
  {
    hide AllOk, Asked, Missing, PrimaryLink, LastSaved, NoneOutside, NoCreations, Complete;
    hide Advanced, Proper, StopsAtFailure, WritesKnown, SavesNext, LinksKept;
  }

  lemma ExecuteGoes(w: World, o: Oracle, target: RunTarget, now: Time)
    ensures var (after, outcome) := Execute(w, o, target, now); Concluded(w, target, now, after, outcome)
  {
    hide Going, AllOk, Deliver, EnsureLinks, Conclude, Called, Delivered, Asked, Missing, PrimaryLink, Concluded;
    if now < w.task.availableTime {
      WaitGoes(w, o, target, now);
      return;
    }
    EnsureLinksGoes(w, o);
    var (linked, links) := EnsureLinks(w, o);
    LinksCalled(w, linked, links, target);
    if links.Stopped? {
      Stops(w, target, now, w, linked, links.outcome);
    } else if target == LinkExtraction {
      WrapUp(w, linked, o, target, now, Extracted, Extraction);
      assert Marked(linked, Extracted) == Marked(At(linked, Extraction), Extracted);
    } else if w.task.endType == Miniprogram {
      WrapUp(w, linked, o, target, now, Ready, AllReady);
    } else {
      NativeGoes(w, linked, o, now);
    }
  }

  lemma NativeGoes(w: World, linked: World, o: Oracle, now: Time)
    requires LinksEnsured(w, linked, Done) && w.task.endType == Native && now >= w.task.availableTime
    ensures var (delivered, end) := Deliver(linked, o);
      var (after, outcome) :=
        if end.Stopped? then (delivered, end.outcome)
        else Conclude(Marked(At(delivered, AllReady), Ready), o, AllLinksReady);
      Concluded(w, LinkReadyTarget, now, after, outcome)
  {
    hide Going, AllOk, Deliver, Conclude, Called, Asked, Missing, PrimaryLink, Concluded, LinksEnsured;
    LinksCarry(w, linked);
    DeliverGoes(w, linked, o);
    var (delivered, end) := Deliver(linked, o);
    DeliveryCalled(w, linked, delivered, end);
    if end.Stopped? {
      Stops(w, LinkReadyTarget, now, linked, delivered, end.outcome);
    } else {
      WrapUp(w, delivered, o, LinkReadyTarget, now, Ready, AllReady);
    }
  }

  lemma LinksCarry(w: World, linked: World)
    requires LinksEnsured(w, linked, Done)
    ensures Going(w, linked) && AllOk(Since(w, linked)) && NoConfigCalls(Since(w, linked))
  {
    hide Going, AllOk;
    GoingGrows(w, linked);
  }
}
