/** The stage of the promotion configurations. */
module LinkReadinessConfigs {
  import opened Basics
  import opened LinkReadiness
  import opened LinkReadinessProofs
  import opened LinkReadinessStages

  // ---- what is missing ----

  lemma {:induction false} MissingHolds(links: seq<(string, string)>, configs: map<string, string>, k: nat)
    requires k < |Missing(links, configs)|
    ensures var pair := Missing(links, configs)[k]; pair in links && pair.1 != "" && ConfigOf(configs, pair.0) == ""
  {
    var rest := Missing(links[1..], configs);
    if Missing(links, configs) == rest {
      MissingHolds(links[1..], configs, k);
    } else if k > 0 {
      MissingHolds(links[1..], configs, k - 1);
    }
  }

  lemma {:induction false} MissingOfOthers(
      links: seq<(string, string)>, configs: map<string, string>, linkType: string, id: string)
    requires forall i :: 0 <= i < |links| ==> links[i].0 != linkType
    ensures Missing(links, configs[linkType := id]) == Missing(links, configs)
  {
    if links != [] {
      MissingOfOthers(links[1..], configs, linkType, id);
    }
  }

  /** A new configuration takes its type off the list. */
  lemma {:induction false} MissingShrinks(links: seq<(string, string)>, configs: map<string, string>, id: Id)
    requires DistinctTypes(links) && Missing(links, configs) != []
    ensures var missing := Missing(links, configs);
      Missing(links, configs[missing[0].0 := id]) == missing[1..]
  {
    var missing := Missing(links, configs);
    if links[0].1 != "" && ConfigOf(configs, links[0].0) == "" {
      MissingOfOthers(links[1..], configs, links[0].0, id);
    } else {
      MissingHolds(links[1..], configs, 0);
      MissingShrinks(links[1..], configs, id);
    }
  }

  /** Nothing is missing exactly when each non-empty link has a configuration. */
  lemma {:induction false} NothingMissing(links: seq<(string, string)>, configs: map<string, string>)
    ensures Missing(links, configs) == []
      <==> forall i :: 0 <= i < |links| && links[i].1 != "" ==> ConfigOf(configs, links[i].0) != ""
  {
    if links != [] {
      NothingMissing(links[1..], configs);
      assert forall i :: 0 < i < |links| ==> links[i] == links[1..][i - 1];
    }
  }

  /** Missing are exactly the non-empty links whose type has no configuration id, in link order. */
  lemma {:induction false} MissingAreInOrder(x: seq<(string, string)>, y: seq<(string, string)>,
                                             link: (string, string), configs: map<string, string>)
    ensures Missing(x + y, configs) == Missing(x, configs) + Missing(y, configs)
    ensures Missing([link], configs) ==
      if link.1 != "" && (link.0 !in configs || configs[link.0] == "") then [link] else []
  {
    if x == [] {
      assert x + y == y && [link][1..] == [];
    } else {
      assert (x + y)[0] == x[0] && (x + y)[1..] == x[1..] + y;
      MissingAreInOrder(x[1..], y, link, configs);
    }
  }

  // ---- the primary link ----

  /** The type has a link that is not empty. */
  predicate HasLink(links: seq<(string, string)>, linkType: string) {
    exists i :: 0 <= i < |links| && links[i].0 == linkType && links[i].1 != ""
  }

  lemma {:induction false} LinkOfType(links: Links, linkType: string)
    ensures LinkOf(links, linkType) != "" <==> HasLink(links, linkType)
    ensures HasLink(links, linkType) ==> (linkType, LinkOf(links, linkType)) in links
    ensures forall link :: link != "" && (linkType, link) in links ==> LinkOf(links, linkType) == link
    decreases |links|
  {
    if links != [] {
      LinkOfType(links[1..], linkType);
      var rest := links[1..];
      assert forall i :: 0 < i < |links| ==> links[i] == rest[i - 1];
      assert forall i :: 0 <= i < |rest| ==> rest[i] == links[i + 1];
    }
  }

  /** The drama is made from the IAA link, without one from the 2.9 link, without that from the 9.9 link. */
  lemma PrimaryLinkIsFirst(links: Links)
    ensures match PrimaryLink(links)
      case Some(link) =>
        link != "" && (if HasLink(links, "IAA") then "IAA" else if HasLink(links, "2.9") then "2.9" else "9.9", link)
            in links
      case None => !HasLink(links, "IAA") && !HasLink(links, "2.9") && !HasLink(links, "9.9")
  {
    hide LinkOf, HasLink;
    LinkOfType(links, "IAA");
    LinkOfType(links, "2.9");
    LinkOfType(links, "9.9");
  }

  // ---- the calls asked for ----

  /** The types and links configurations were asked for, in order. */
  function Asked(events: seq<Event>): seq<(string, string)> {
    if events == [] then []
    else
      var last := events[|events| - 1];
      Asked(events[..|events| - 1]) + if last.ConfigCall? then [(last.linkType, last.link)] else []
  }

  lemma {:induction false} AskedAdds(x: seq<Event>, y: seq<Event>)
    ensures Asked(x + y) == Asked(x) + Asked(y)
    decreases |y|
  {
    if y == [] {
      assert x + y == x;
    } else {
      assert (x + y)[..|x + y| - 1] == x + y[..|y| - 1];
      AskedAdds(x, y[..|y| - 1]);
    }
  }

  lemma {:induction false} NothingAsked(events: seq<Event>)
    requires NoConfigCalls(events)
    ensures Asked(events) == []
    decreases |events|
  {
    if events != [] {
      NothingAsked(events[..|events| - 1]);
    }
  }

  /** Configurations asked for on the way from one world to the next add up. */
  lemma AskedOnTheWay(first: World, second: World, third: World)
    requires first.log <= second.log <= third.log
    ensures Asked(Since(first, third)) == Asked(Since(first, second)) + Asked(Since(second, third))
  {
    SinceGrows(first, second, third);
    AskedAdds(Since(first, second), Since(second, third));
  }

  lemma StoringAsksNothing(w: World, after: World)
    requires OnlyStored(w, after)
    ensures Asked(Since(w, after)) == []
  {
    NothingAsked(Since(w, after));
  }

  // ---- one configuration ----

  lemma ConfigReceived(w: World, o: Oracle, linkType: string, link: string)
    requires ConfigOf(w.task.configs, linkType) == "" && Next(w, o).ok
    ensures Received(w.task, MakeConfig(w, o, linkType, link).task, ConfigFor(linkType), Next(w, o).id)
  {
    var after := MakeConfig(w, o, linkType, link).task;
    forall other | other != ConfigFor(linkType) ensures IdOf(after, other) == IdOf(w.task, other) {
      if other.ConfigFor? {
        assert other.linkType != linkType;
      }
    }
  }

  lemma ConfigGoes(first: World, w: World, o: Oracle, linkType: string, link: string)
    requires Going(first, w) && AllOk(Since(first, w)) && ConfigOf(w.task.configs, linkType) == ""
    requires link != "" && (linkType, link) in w.task.links
    ensures var made := MakeConfig(w, o, linkType, link);
      && first.log <= w.log <= made.log && Asked(Since(w, made)) == [(linkType, link)]
      && (!Went(made) ==> Going(first, made) && !AllOk(Since(first, made)))
      && (Went(made) ==> AllOk(Since(first, made)) && Going(first, Save(made, o)))
  {
    hide Executed, LastSaved, Received;
    var made := MakeConfig(w, o, linkType, link);
    var call := ConfigCall(w.task.dramaId, linkType, link, if Next(w, o).ok then Some(Next(w, o).id) else None);
    OneMoreSince(first, w, call);
    LastSavedOneMore(first.stored, Since(first, w), call);
    assert Since(w, made) == [call] && [call][..0] == [];
    if Next(w, o).ok {
      var save := UpdateCall(made.task, Next(made, o).ok);
      ConfigReceived(w, o, linkType, link);
      NewCreation(first.task, w.task, made.task, Since(first, w), call, ConfigFor(linkType), Next(made, o).ok);
      OneMoreSince(first, made, save);
      LastSavedOneMore(first.stored, Since(first, made), save);
      WentWell(first, w, made, call);
    } else {
      FailedCreation(first.task, w.task, Since(first, w), call, ConfigFor(linkType));
      FailedLast(first, made);
    }
  }

  // ---- the loop ----

  /** What the loop leaves: the missing ones asked for in order, all of them unless a call failed. */
  ghost predicate ConfigsMade(first: World, w: World, after: World, end: StageEnd, missing: seq<(string, string)>) {
    && Going(first, after) && w.log <= after.log
    && SameButConfigs(w.task, after.task)
    && Asked(Since(w, after)) <= missing
    && (end == Done ==>
      && AllOk(Since(first, after)) && Asked(Since(w, after)) == missing
      && Missing(after.task.links, after.task.configs) == [])
    && (end.Stopped? ==> Ended(first, w, after, end))
    && (missing != [] ==> Asked(Since(w, after)) != [])
    && ReviewedAt(after, end, PromotionConfig)
  }

  predicate SameButConfigs(before: Row, after: Row) {
    after == before.(configs := after.configs, stage := after.stage, state := after.state)
  }

  lemma LoopFails(first: World, w: World, failed: World, o: Oracle, missing: seq<(string, string)>)
    requires Going(first, failed) && first.log <= w.log <= failed.log && !AllOk(Since(first, failed))
    requires SameButConfigs(w.task, failed.task) && [] != Asked(Since(w, failed)) <= missing
    ensures var (after, end) := StageFailure(failed, o, PromotionConfig); ConfigsMade(first, w, after, end, missing)
  {
    hide Going, AllOk, StageFailure, Since, Asked, Missing;
    FailureAfter(first, w, failed, o, PromotionConfig);
    var (after, end) := StageFailure(failed, o, PromotionConfig);
    AskedOnTheWay(w, failed, after);
    StoringAsksNothing(failed, after);
  }

  lemma {:induction false} CreateConfigsGoes(first: World, w: World, o: Oracle, missing: seq<(string, string)>)
    requires Going(first, w) && AllOk(Since(first, w)) && missing == Missing(w.task.links, w.task.configs)
    ensures var (after, end) := CreateConfigs(w, o, missing); ConfigsMade(first, w, after, end, missing)
    decreases |missing|
  {
    hide Going, AllOk, StageFailure, Asked, Missing, ConfigsMade;
    if missing == [] {
      NoneMade(first, w);
      return;
    }
    MissingHolds(w.task.links, w.task.configs, 0);
    var (linkType, link) := missing[0];
    ConfigGoes(first, w, o, linkType, link);
    var made := MakeConfig(w, o, linkType, link);
    assert [(linkType, link)] <= missing;
    if !Went(made) {
      LoopFails(first, w, made, o, missing);
      return;
    }
    var saved := Save(made, o);
    StoringAsksNothing(made, saved);
    AskedOnTheWay(w, made, saved);
    if !Went(saved) {
      FailedLast(first, saved);
      LoopFails(first, w, saved, o, missing);
      return;
    }
    WentWell(first, made, saved, saved.log[|saved.log| - 1]);
    MissingShrinks(w.task.links, w.task.configs, Next(w, o).id);
    CreateConfigsGoes(first, saved, o, missing[1..]);
    var (after, end) := CreateConfigs(saved, o, missing[1..]);
    LoopGoesOn(first, w, saved, after, end, missing);
  }

  lemma NoneMade(first: World, w: World)
    requires Going(first, w) && AllOk(Since(first, w)) && Missing(w.task.links, w.task.configs) == []
    ensures ConfigsMade(first, w, w, Done, [])
  {
  }

  lemma LoopGoesOn(
      first: World, w: World, saved: World, after: World, end: StageEnd, missing: seq<(string, string)>)
    requires w.log <= saved.log && missing != [] && Asked(Since(w, saved)) == [missing[0]]
    requires SameButConfigs(w.task, saved.task)
    requires ConfigsMade(first, saved, after, end, missing[1..])
    ensures ConfigsMade(first, w, after, end, missing)
  {
    hide Going, AllOk, Asked, Missing;
    AskedOnTheWay(w, saved, after);
    assert missing == [missing[0]] + missing[1..];
  }

  // ---- the stage ----

  /** What the stage leaves: every non-empty link configured, unless a call failed or there is no link. */
  ghost predicate ConfigsEnsured(first: World, w: World, after: World, end: StageEnd) {
    var missing := Missing(w.task.links, w.task.configs);
    && Ended(first, w, after, end)
    && SameButConfigs(w.task, after.task)
    && Asked(Since(w, after)) <= missing
    && (missing == [] ==> OnlyStored(w, after))
    && (end == Done ==> Asked(Since(w, after)) == missing && Missing(after.task.links, after.task.configs) == [])
    && ReviewedAt(after, end, PromotionConfig)
    && (end == Stopped(ManualReview) ==> Asked(Since(w, after)) != [])
  }

  lemma StageAfterLoop(first: World, w: World, begun: World, o: Oracle)
    requires OnlyStored(w, begun) && begun.task == w.task && first.log <= w.log
        && Missing(w.task.links, w.task.configs) != []
    requires Going(first, begun) && AllOk(Since(first, begun))
    ensures var missing := Missing(w.task.links, w.task.configs);
      var (made, end) := CreateConfigs(begun, o, missing);
      var (after, last) := if end == Done then FinishStage(made, o, PromotionConfig) else (made, end);
      ConfigsEnsured(first, w, after, last)
  {
    hide Going, AllOk, FinishStage, CreateConfigs, OnlyStored, Asked, Missing, Since;
    var missing := Missing(w.task.links, w.task.configs);
    CreateConfigsGoes(first, begun, o, missing);
    var (made, end) := CreateConfigs(begun, o, missing);
    OnlyStoredGrows(w, begun);
    GoingGrows(first, begun);
    GoingGrows(first, made);
    StoringAsksNothing(w, begun);
    AskedOnTheWay(w, begun, made);
    if end == Done {
      GoingSaved(first, made, o, PromotionConfig);
      FinishGoes(first, made, o, PromotionConfig);
      var (after, last) := FinishStage(made, o, PromotionConfig);
      OnlyStoredGrows(made, after);
      StoringAsksNothing(made, after);
      AskedOnTheWay(w, made, after);
    }
  }

  lemma GoingSaved(first: World, w: World, o: Oracle, stage: Stage)
    requires Going(first, w)
    ensures Going(first, Save(At(w, stage), o))
  {
    hide Going;
    TaskStays(first, w, At(w, stage).task);
    SaveGoes(first, At(w, stage), o);
  }

  lemma EnsureConfigsGoes(first: World, w: World, o: Oracle)
    requires Going(first, w) && AllOk(Since(first, w))
    ensures var (after, end) := EnsurePromotionConfigs(w, o); ConfigsEnsured(first, w, after, end)
  {
    hide Going, AllOk, FinishStage, CreateConfigs, OnlyStored, Asked, Missing, PrimaryLink;
    GoingGrows(first, w);
    var missing := Missing(w.task.links, w.task.configs);
    if missing == [] {
      PassGoes(first, w, o, PromotionConfig);
      StoringAsksNothing(w, PassStage(w, o, PromotionConfig).0);
    } else {
      var begun := Other(w, o);
      OtherGoes(first, w, o);
      SaveOnlyStores(w, o, PromotionConfig);
      StoringAsksNothing(w, begun);
      if !Went(begun) {
        FailedLast(first, begun);
      } else if PrimaryLink(w.task.links).Some? {
        WentWell(first, w, begun, begun.log[|begun.log| - 1]);
        StageAfterLoop(first, w, begun, o);
      }
    }
  }
}
