/** When an exception escapes an execution, and how often a failure is recorded. */
module LinkReadinessEnds {
  import opened Basics
  import opened LinkReadiness
  import opened LinkReadinessProofs

  /** The last call stored the task as it is. */
  predicate StoredLast(w: World) {
    w.log != [] && w.log[|w.log| - 1] == UpdateCall(w.task, true)
  }

  /** A stopped stage is in review when its last call stored the task, and otherwise raises. */
  predicate Stops(after: World, end: StageEnd) {
    end.Stopped? ==> end.outcome == if StoredLast(after) then ManualReview else Raised
  }

  lemma FailureStops(w: World, o: Oracle, stage: Stage)
    ensures var (after, end) := StageFailure(w, o, stage); end.Stopped? && Stops(after, end)
  {
  }

  lemma FinishStops(w: World, o: Oracle, stage: Stage)
    ensures var (after, end) := FinishStage(w, o, stage); Stops(after, end)
  {
    hide StageFailure;
    FailureStops(Save(At(w, stage), o), o, stage);
    FailureStops(Other(Save(At(w, stage), o), o), o, stage);
  }

  lemma LinksStop(w: World, o: Oracle)
    ensures var (after, end) := EnsureLinks(w, o); Stops(after, end)
  {
    hide StageFailure, FinishStage;
    var prepared := Prepare(Other(w, o), o);
    var recorded := Other(prepared, o);
    FailureStops(prepared, o, Extraction);
    FailureStops(recorded, o, Extraction);
    FailureStops(Save(Marked(At(recorded, Extraction), InReview), o), o, Extraction);
    FinishStops(Reloaded(recorded), o, Extraction);
  }

  lemma DramaStops(w: World, o: Oracle)
    ensures var (after, end) := EnsureDeliveryDrama(w, o); Stops(after, end)
  {
    hide StageFailure, FinishStage, PrimaryLink;
    var begun := Other(w, o);
    FailureStops(begun, o, DeliveryDrama);
    if PrimaryLink(w.task.links).Some? {
      var made := MakeAsset(begun, o, PrimaryLink(w.task.links).value);
      FailureStops(made, o, DeliveryDrama);
      FinishStops(made, o, DeliveryDrama);
    }
  }

  lemma {:induction false} CreatingStops(w: World, o: Oracle, missing: seq<(string, string)>)
    ensures var (after, end) := CreateConfigs(w, o, missing); Stops(after, end)
    decreases |missing|
  {
    hide StageFailure;
    if missing != [] {
      var made := MakeConfig(w, o, missing[0].0, missing[0].1);
      FailureStops(made, o, PromotionConfig);
      FailureStops(Save(made, o), o, PromotionConfig);
      CreatingStops(Save(made, o), o, missing[1..]);
    }
  }

  lemma ConfigsStop(w: World, o: Oracle)
    ensures var (after, end) := EnsurePromotionConfigs(w, o); Stops(after, end)
  {
    hide CreateConfigs, FinishStage, PrimaryLink, Missing;
    var missing := Missing(w.task.links, w.task.configs);
    var begun := Other(w, o);
    CreatingStops(begun, o, missing);
    FinishStops(CreateConfigs(begun, o, missing).0, o, PromotionConfig);
  }

  /** An execution returns exactly when its last call stored the task; otherwise an exception escapes. */
  lemma RaisedUnlessStoredLast(w: World, o: Oracle, target: RunTarget, now: Time)
    ensures var (after, outcome) := Execute(w, o, target, now); outcome == Raised <==> !StoredLast(after)
  {
    hide EnsureLinks, EnsureDeliveryDrama, EnsurePromotionConfigs;
    LinksStop(w, o);
    DramaStops(EnsureLinks(w, o).0, o);
    ConfigsStop(EnsureDeliveryDrama(EnsureLinks(w, o).0, o).0, o);
  }

  /** How many of the calls failed. */
  function Failures(events: seq<Event>): nat {
    if events == [] then 0
    else Failures(events[..|events| - 1]) + if Succeeded(events[|events| - 1]) then 0 else 1
  }

  function FailuresFrom(w: World, n: nat): nat
    requires n <= |w.log|
  {
    Failures(w.log[n..])
  }

  lemma OneCallMore(w: World, after: World, event: Event, n: nat)
    requires n <= |w.log| && after.log == w.log + [event]
    ensures FailuresFrom(after, n) == FailuresFrom(w, n) + if Succeeded(event) then 0 else 1
  {
    assert after.log[n..] == w.log[n..] + [event];
  }

  lemma RecordingFails(w: World, o: Oracle, stage: Stage, n: nat)
    requires n <= |w.log|
    ensures var (after, end) := StageFailure(w, o, stage);
      && end.Stopped? && |w.log| < |after.log|
      && FailuresFrom(after, n) == FailuresFrom(w, n) + if end.outcome == ManualReview then 0 else 1
  {
    hide FailuresFrom;
    var recorded := Other(w, o);
    OneCallMore(w, recorded, OtherCall(Next(w, o).ok), n);
    var marked := Marked(At(recorded, stage), InReview);
    SameFailures(recorded, marked, n);
    OneCallMore(marked, Save(marked, o), UpdateCall(marked.task, Next(marked, o).ok), n);
  }

  lemma SameFailures(w: World, after: World, n: nat)
    requires n <= |w.log| && after.log == w.log
    ensures FailuresFrom(after, n) == FailuresFrom(w, n)
  {
  }

  /**
   * An extraction that raises has its failure recorded once: a failed call ends the stage. One that refuses is
   * recorded a second time when the first try fails.
   */
  lemma FailedExtractionEnds(w: World, o: Oracle)
    requires !LinksDone(w.task) && o(|w.log|).ok && !o(|w.log| + 1).ok
    ensures var (after, end) := EnsureLinks(w, o);
      && end.Stopped? && |w.log| + 2 < |after.log|
      && FailuresFrom(after, |w.log| + 2) == (if end.outcome == ManualReview then 0 else 1)
        + if o(|w.log| + 1).raises || (o(|w.log| + 2).ok && o(|w.log| + 3).ok) then 0 else 1
  {
    hide StageFailure, FailuresFrom, FinishStage;
    var n := |w.log| + 2;
    var prepared := Prepare(Other(w, o), o);
    var recorded := Other(prepared, o);
    var marked := Marked(At(recorded, Extraction), InReview);
    var saved := Save(marked, o);
    NoneFailed(prepared);
    OneCallMore(prepared, recorded, OtherCall(Next(prepared, o).ok), n);
    SameFailures(recorded, marked, n);
    OneCallMore(marked, saved, UpdateCall(marked.task, Next(marked, o).ok), n);
    RecordingFails(prepared, o, Extraction, n);
    RecordingFails(recorded, o, Extraction, n);
    RecordingFails(saved, o, Extraction, n);
  }

  lemma NoneFailed(w: World)
    ensures FailuresFrom(w, |w.log|) == 0
  {
  }

  /** Links are kept exactly when they are validated and not empty; otherwise the extraction is asked, once. */
  lemma LinksAreAskedForUnlessThere(w: World, o: Oracle)
    ensures var after := EnsureLinks(w, o).0;
      && |w.log| < |after.log|
      && (w.task.validated && w.task.links != [] ==> after.log == w.log + [UpdateCall(after.task, o(|w.log|).ok)])
      && (!w.task.validated || w.task.links == [] ==>
        && after.log[|w.log|] == OtherCall(o(|w.log|).ok)
        && (o(|w.log|).ok ==> |w.log| + 1 < |after.log| && after.log[|w.log| + 1].PrepareCall?))
  {
    hide StageFailure, FinishStage;
    var prepared := Prepare(Other(w, o), o);
    var recorded := Other(prepared, o);
    FailureAdds(prepared, o, Extraction);
    FailureAdds(recorded, o, Extraction);
    FailureAdds(Save(Marked(At(recorded, Extraction), InReview), o), o, Extraction);
    FinishAdds(Reloaded(recorded), o, Extraction);
  }

  lemma FailureAdds(w: World, o: Oracle, stage: Stage)
    ensures w.log <= StageFailure(w, o, stage).0.log
  {
  }

  lemma FinishAdds(w: World, o: Oracle, stage: Stage)
    ensures w.log <= FinishStage(w, o, stage).0.log
  {
  }
}
