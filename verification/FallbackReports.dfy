/** What the provider chain reports: its status, the types it expects, and the first reason for each one missing. */
module FallbackReports {
  import opened Basics
  import opened Sorting
  import opened LinkAcquisition
  import opened FallbackChain

  /** The first reason given for a type. */
  function ReasonIn(reasons: seq<(string, string)>, linkType: string): Option<string> {
    if reasons == [] then None
    else if reasons[0].0 == linkType then Some(reasons[0].1)
    else ReasonIn(reasons[1..], linkType)
  }

  /** The first reason any of the providers gives for a type, up to the one that selects it. */
  function FirstReport(answers: seq<Answer>, linkType: string): Option<string> {
    if answers == [] || FirstOf(answers[0].selected, linkType).Some? then None
    else
      var own := ReasonIn(answers[0].reasons, linkType);
      if own.Some? then own else FirstReport(answers[1..], linkType)
  }

  function ReasonOf(g: Gathered, linkType: string): Option<string> {
    if linkType in g.missing then Some(g.missing[linkType]) else None
  }

  lemma {:induction false} ReasonInAppend(x: seq<(string, string)>, last: (string, string), linkType: string)
    ensures ReasonIn(x + [last], linkType) ==
      if ReasonIn(x, linkType).Some? then ReasonIn(x, linkType) else if last.0 == linkType then Some(last.1) else None
  {
    if x == [] {
      assert (x + [last])[1..] == [];
    } else {
      assert (x + [last])[1..] == x[1..] + [last];
      ReasonInAppend(x[1..], last, linkType);
    }
  }

  /** Reasons are taken over for types neither selected nor reported yet. */
  lemma {:induction false} ReasonsAreTaken(g: Gathered, reasons: seq<(string, string)>, linkType: string)
    ensures ReasonOf(WithReasons(g, reasons), linkType) ==
      if linkType in g.missing then ReasonOf(g, linkType)
      else if linkType in TypesOf(g.selected) then None
      else ReasonIn(reasons, linkType)
    decreases |reasons|
  {
    hide ReasonIn;
    if reasons == [] {
      NoReasons(linkType);
    } else {
      var n := |reasons| - 1;
      ReasonsAreTaken(g, reasons[..n], linkType);
      ReasonsKeepSelected(g, reasons[..n]);
      assert reasons == reasons[..n] + [reasons[n]];
      ReasonInAppend(reasons[..n], reasons[n], linkType);
    }
  }

  lemma NoReasons(linkType: string)
    ensures ReasonIn([], linkType) == None
  {
  }

  lemma {:induction false} GatheredReasons(g: Gathered, answers: seq<Answer>, linkType: string)
    ensures ReasonOf(Gather(g, answers), linkType) ==
      if linkType in g.missing then ReasonOf(g, linkType)
      else if linkType in TypesOf(g.selected) then None
      else FirstReport(answers[..Asked(g, answers)], linkType)
    decreases |answers|
  {
    hide WithReasons, SelectedWith, NewCandidates, ReasonIn, Stops, FirstOf;
    if answers != [] {
      var answer, next, n := answers[0], Merge(g, answers[0]), Asked(g, answers);
      var taken := g.(candidates := g.candidates + NewCandidates(answer.candidates, TypesOf(g.selected)),
        selected := SelectedWith(g.selected, answer.selected));
      ReasonsAreTaken(taken, answer.reasons, linkType);
      ReasonsKeepSelected(taken, answer.reasons);
      SelectedTypesGrow(g.selected, answer.selected, linkType);
      assert answers[..n][0] == answer;
      if Stops(next, answer) {
        assert answers[..n][1..] == [];
      } else {
        GatheredReasons(next, answers[1..], linkType);
        assert answers[..n][1..] == answers[1..][..n - 1];
      }
    }
  }

  /** The list of missing types has each once. */
  ghost predicate Listed(g: Gathered) {
    Distinct(g.missingTypes) && Members(g.missingTypes) == g.missing.Keys
  }

  lemma {:induction false} ReasonsKeepListed(g: Gathered, reasons: seq<(string, string)>)
    requires Listed(g)
    ensures Listed(WithReasons(g, reasons))
    decreases |reasons|
  {
    if reasons != [] {
      var n := |reasons| - 1;
      ReasonsKeepListed(g, reasons[..n]);
      var earlier := WithReasons(g, reasons[..n]);
      MembersAppend(earlier.missingTypes, reasons[n].0);
      assert forall t :: t in earlier.missingTypes ==> t in Members(earlier.missingTypes);
    }
  }

  lemma {:induction false} GatheredAreListed(g: Gathered, answers: seq<Answer>)
    requires Listed(g)
    ensures Listed(Gather(g, answers))
    decreases |answers|
  {
    hide WithReasons, SelectedWith, NewCandidates, Stops, Distinct;
    if answers != [] {
      var answer := answers[0];
      var taken := g.(candidates := g.candidates + NewCandidates(answer.candidates, TypesOf(g.selected)),
        selected := SelectedWith(g.selected, answer.selected));
      assert Listed(taken);
      ReasonsKeepListed(taken, answer.reasons);
      GatheredAreListed(Merge(g, answer), answers[1..]);
    }
  }

  /**
   * What the chain reports, for any answers: each type missing with the first reason given for it before it was
   * selected, the selected types before the missing ones, and a status that says whether anything is missing.
   */
  lemma ChainReports(answers: seq<Answer>, linkType: string)
    ensures var raw := ChainResult(answers);
      && (match FirstReport(answers[..Asked(NOTHING, answers)], linkType)
          case None => linkType !in raw.missing
          case Some(reason) => linkType in raw.missing && raw.missing[linkType] == reason)
      && (exists missing :: Distinct(missing) && Members(missing) == raw.missing.Keys
            && raw.expectedTypes == SelectedTypes(raw.selected) + missing)
      && raw.status == (if raw.missing != map[] then Partial else if raw.selected == [] then NothingFound else Complete)
  {
    hide Gather, Distinct;
    if answers == [] {
      NothingListed();
      assert SelectedTypes([]) + [] == [];
    } else {
      NothingListed();
      GatheredReasons(NOTHING, answers, linkType);
      GatheredAreListed(NOTHING, answers);
      NothingTyped(linkType);
    }
  }

  lemma NothingListed()
    ensures Listed(NOTHING) && Distinct<string>([]) && Members<string>([]) == {}
  {
  }

  // ---- which providers are asked ----

  /** After provider `k` nothing is left to ask for: it answers complete, or each of the three types is selected. */
  ghost predicate Done(g: Gathered, answers: seq<Answer>, k: nat)
    requires k < |answers|
  {
    answers[k].status == Complete
    || forall t :: t in {"IAA", "2.9", "9.9"} ==>
         t in TypesOf(g.selected) || FirstSelection(answers[..k + 1], t).Some?
  }

  lemma DoneAtOnce(g: Gathered, answers: seq<Answer>)
    requires answers != []
    ensures Done(g, answers, 0) <==> Stops(Merge(g, answers[0]), answers[0])
  {
    hide WithReasons, SelectedWith, NewCandidates, FirstOf;
    var answer := answers[0];
    var taken := g.(candidates := g.candidates + NewCandidates(answer.candidates, TypesOf(g.selected)),
      selected := SelectedWith(g.selected, answer.selected));
    ReasonsKeepSelected(taken, answer.reasons);
    assert answers[..1][1..] == [] && answers[..1][0] == answer;
    forall t ensures t in TypesOf(Merge(g, answer).selected) <==>
        t in TypesOf(g.selected) || FirstSelection(answers[..1], t).Some? {
      SelectedTypesGrow(g.selected, answer.selected, t);
    }
  }

  lemma DoneLater(g: Gathered, answers: seq<Answer>, k: nat)
    requires 0 < k < |answers|
    ensures Done(g, answers, k) <==> Done(Merge(g, answers[0]), answers[1..], k - 1)
  {
    hide WithReasons, SelectedWith, NewCandidates, FirstOf;
    var answer := answers[0];
    var taken := g.(candidates := g.candidates + NewCandidates(answer.candidates, TypesOf(g.selected)),
      selected := SelectedWith(g.selected, answer.selected));
    ReasonsKeepSelected(taken, answer.reasons);
    assert answers[..k + 1][0] == answer && answers[..k + 1][1..] == answers[1..][..k];
    forall t ensures t in TypesOf(g.selected) || FirstSelection(answers[..k + 1], t).Some? <==>
        t in TypesOf(Merge(g, answer).selected) || FirstSelection(answers[1..][..k], t).Some? {
      SelectedTypesGrow(g.selected, answer.selected, t);
    }
  }

  /** Providers are asked up to the first one after which nothing is left to ask for, and all of them without one. */
  lemma {:induction false} AskedUntilDone(g: Gathered, answers: seq<Answer>)
    ensures var n := Asked(g, answers);
      && (forall k :: 0 <= k < n - 1 ==> !Done(g, answers, k))
      && (n < |answers| ==> n > 0 && Done(g, answers, n - 1))
    decreases |answers|
  {
    hide Merge, Stops, Done;
    if answers != [] {
      DoneAtOnce(g, answers);
      if !Stops(Merge(g, answers[0]), answers[0]) {
        AskedUntilDone(Merge(g, answers[0]), answers[1..]);
        forall k | 0 < k < |answers|
          ensures Done(g, answers, k) <==> Done(Merge(g, answers[0]), answers[1..], k - 1) {
          DoneLater(g, answers, k);
        }
      }
    }
  }
}
