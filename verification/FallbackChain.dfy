/** Providers in order of priority: the first to select a link type keeps it. */
module FallbackChain {
  import opened Basics
  import opened Sorting
  import opened LinkAcquisition

  const ALL_TYPES := {"IAA", "2.9", "9.9"}

  /** What the chain has gathered; `missingTypes` keeps the order in which types were first reported missing. */
  datatype Gathered = Gathered(
    selected: seq<PromotionAsset>,
    candidates: seq<PromotionAsset>,
    missing: map<string, string>,
    missingTypes: seq<string>)

  const NOTHING := Gathered([], [], map[], [])

  /** One provider's answer; `reasons` lists what it reports missing, in order. */
  datatype Answer = Answer(
    status: AcquisitionStatus,
    candidates: seq<PromotionAsset>,
    selected: seq<PromotionAsset>,
    reasons: seq<(string, string)>)

  /** The candidates of types nobody selected before. */
  function NewCandidates(candidates: seq<PromotionAsset>, taken: set<string>): seq<PromotionAsset> {
    if candidates == [] then []
    else
      var earlier := NewCandidates(candidates[..|candidates| - 1], taken);
      var last := candidates[|candidates| - 1];
      if last.linkType in taken then earlier else earlier + [last]
  }

  /** Keep the first selected asset of each type. */
  function SelectedWith(selected: seq<PromotionAsset>, more: seq<PromotionAsset>): seq<PromotionAsset> {
    if more == [] then selected
    else
      var earlier := SelectedWith(selected, more[..|more| - 1]);
      var last := more[|more| - 1];
      if last.linkType in TypesOf(earlier) then earlier else earlier + [last]
  }

  function WithReasons(g: Gathered, reasons: seq<(string, string)>): Gathered
    decreases |reasons|
  {
    if reasons == [] then g
    else
      var earlier := WithReasons(g, reasons[..|reasons| - 1]);
      var (linkType, reason) := reasons[|reasons| - 1];
      if linkType in TypesOf(earlier.selected) || linkType in earlier.missing then earlier
      else earlier.(missing := earlier.missing[linkType := reason], missingTypes := earlier.missingTypes + [linkType])
  }

  function Merge(g: Gathered, answer: Answer): Gathered {
    var taken := TypesOf(g.selected);
    WithReasons(
      g.(candidates := g.candidates + NewCandidates(answer.candidates, taken),
          selected := SelectedWith(g.selected, answer.selected)),
      answer.reasons)
  }

  /** The chain stops at a complete answer, or once every type is selected. */
  predicate Stops(g: Gathered, answer: Answer) {
    answer.status == Complete || ALL_TYPES <= TypesOf(g.selected)
  }

  function Gather(g: Gathered, answers: seq<Answer>): Gathered
    decreases |answers|
  {
    if answers == [] then g
    else
      var next := Merge(g, answers[0]);
      if Stops(next, answers[0]) then next else Gather(next, answers[1..])
  }

  function ChainStatus(g: Gathered): AcquisitionStatus {
    if g.selected == [] && g.missing == map[] then NothingFound
    else if g.missing != map[] then Partial
    else Complete
  }

  /** The types in order of selection, standing for the unordered set of the program. */
  function SelectedTypes(selected: seq<PromotionAsset>): seq<string> {
    seq(|selected|, i requires 0 <= i < |selected| => selected[i].linkType)
  }

  function ChainResult(answers: seq<Answer>): Acquisition {
    if answers == [] then Acquisition(NothingFound, [], [], [], map[])
    else
      var g := Gather(NOTHING, answers);
      Acquisition(ChainStatus(g), SelectedTypes(g.selected) + g.missingTypes, g.candidates, g.selected, g.missing)
  }

  // ---- the provider loop ----

  method Acquire(answers: seq<Answer>) returns (result: Acquisition)
    ensures result == ChainResult(answers)
  {
    hide Merge, ChainStatus, Stops;
    if answers == [] {
      return Acquisition(NothingFound, [], [], [], map[]);
    }
    var g := NOTHING;
    var i := 0;
    var stopped := false;
    assert answers[0..] == answers;
    while i < |answers| && !stopped
      invariant 0 <= i <= |answers|
      invariant Gather(NOTHING, answers) == if stopped then g else Gather(g, answers[i..])
      decreases |answers| - i, !stopped
    {
      assert answers[i..][0] == answers[i] && answers[i..][1..] == answers[i + 1..];
      g := MergeAnswer(g, answers[i]);
      stopped := Stops(g, answers[i]);
      i := i + 1;
    }
    result := Acquisition(ChainStatus(g), SelectedTypes(g.selected) + g.missingTypes, g.candidates, g.selected,
        g.missing);
  }

  method MergeAnswer(g: Gathered, answer: Answer) returns (merged: Gathered)
    ensures merged == Merge(g, answer)
  {
    var (selected, types, candidates) := (g.selected, TypesOf(g.selected), g.candidates);
    for i := 0 to |answer.candidates|
      invariant candidates == g.candidates + NewCandidates(answer.candidates[..i], types)
    {
      assert answer.candidates[..i + 1][..i] == answer.candidates[..i];
      if answer.candidates[i].linkType !in types {
        candidates := candidates + [answer.candidates[i]];
      }
    }
    assert answer.candidates[..|answer.candidates|] == answer.candidates;
    for i := 0 to |answer.selected|
      invariant selected == SelectedWith(g.selected, answer.selected[..i]) && types == TypesOf(selected)
    {
      assert answer.selected[..i + 1][..i] == answer.selected[..i];
      if answer.selected[i].linkType !in types {
        TypesOfOneMore(selected, answer.selected[i]);
        selected := selected + [answer.selected[i]];
        types := types + {answer.selected[i].linkType};
      }
    }
    assert answer.selected[..|answer.selected|] == answer.selected;
    merged := Gathered(selected, candidates, g.missing, g.missingTypes);
    ghost var start := merged;
    for i := 0 to |answer.reasons|
      invariant merged == WithReasons(start, answer.reasons[..i]) && TypesOf(merged.selected) == types
    {
      assert answer.reasons[..i + 1][..i] == answer.reasons[..i];
      var (linkType, reason) := answer.reasons[i];
      if linkType !in types && linkType !in merged.missing {
        merged := merged.(missing := merged.missing[linkType := reason],
            missingTypes := merged.missingTypes + [linkType]);
      }
    }
    assert answer.reasons[..|answer.reasons|] == answer.reasons;
  }

  lemma TypesOfOneMore(assets: seq<PromotionAsset>, asset: PromotionAsset)
    ensures TypesOf(assets + [asset]) == TypesOf(assets) + {asset.linkType}
  {
    forall t ensures t in TypesOf(assets + [asset]) <==> t in TypesOf(assets) + {asset.linkType} {
      if t in TypesOf(assets) {
        var a :| a in assets && a.linkType == t;
        assert a in assets + [asset];
      }
      assert asset in assets + [asset];
    }
  }

  // ---- who selects what ----

  /** The first asset of a type. */
  function FirstOf(assets: seq<PromotionAsset>, linkType: string): Option<PromotionAsset> {
    if assets == [] then None
    else if assets[0].linkType == linkType then Some(assets[0])
    else FirstOf(assets[1..], linkType)
  }

  lemma {:induction false} FirstOfAppend(x: seq<PromotionAsset>, asset: PromotionAsset, linkType: string)
    ensures FirstOf(x + [asset], linkType) ==
      if FirstOf(x, linkType).Some? then FirstOf(x, linkType) else if asset.linkType == linkType then Some(asset)
          else None
    ensures FirstOf(x, linkType).Some? <==> linkType in TypesOf(x)
  {
    if x == [] {
      assert (x + [asset])[1..] == [];
    } else {
      FirstOfAppend(x[1..], asset, linkType);
      assert (x + [asset])[1..] == x[1..] + [asset];
      assert x == [x[0]] + x[1..];
      assert TypesOf(x) == {x[0].linkType} + TypesOf(x[1..]);
    }
  }

  ghost predicate OnePerType(assets: seq<PromotionAsset>) {
    forall i, j :: 0 <= i < j < |assets| ==> assets[i].linkType != assets[j].linkType
  }

  lemma {:induction false} SelectedWithKeepsFirst(selected: seq<PromotionAsset>, more: seq<PromotionAsset>,
      linkType: string)
    ensures FirstOf(SelectedWith(selected, more), linkType) ==
      if FirstOf(selected, linkType).Some? then FirstOf(selected, linkType) else FirstOf(more, linkType)
    ensures OnePerType(selected) ==> OnePerType(SelectedWith(selected, more))
    decreases |more|
  {
    if more != [] {
      var (front, last) := (more[..|more| - 1], more[|more| - 1]);
      assert more == front + [last];
      SelectedWithKeepsFirst(selected, front, linkType);
      var earlier := SelectedWith(selected, front);
      FirstOfAppend(earlier, last, linkType);
      FirstOfAppend(front, last, linkType);
      if last.linkType !in TypesOf(earlier) {
        assert forall i :: 0 <= i < |earlier| ==> earlier[i].linkType != last.linkType by {
          assert forall i :: 0 <= i < |earlier| ==> earlier[i] in earlier;
        }
      }
    }
  }

  lemma {:induction false} ReasonsKeepSelected(g: Gathered, reasons: seq<(string, string)>)
    ensures WithReasons(g, reasons).selected == g.selected && WithReasons(g, reasons).candidates == g.candidates
    decreases |reasons|
  {
    if reasons != [] {
      ReasonsKeepSelected(g, reasons[..|reasons| - 1]);
    }
  }

  /** How many providers the chain asks. */
  function Asked(g: Gathered, answers: seq<Answer>): (n: nat)
    ensures n <= |answers|
    decreases |answers|
  {
    if answers == [] then 0
    else
      var next := Merge(g, answers[0]);
      if Stops(next, answers[0]) then 1 else 1 + Asked(next, answers[1..])
  }

  /** The asset of the first of these providers that selects the type. */
  function FirstSelection(answers: seq<Answer>, linkType: string): Option<PromotionAsset> {
    if answers == [] then None
    else
      var own := FirstOf(answers[0].selected, linkType);
      if own.Some? then own else FirstSelection(answers[1..], linkType)
  }

  lemma {:induction false} EarliestProviderWins(g: Gathered, answers: seq<Answer>, linkType: string)
    requires OnePerType(g.selected)
    ensures OnePerType(Gather(g, answers).selected)
    ensures FirstOf(Gather(g, answers).selected, linkType) ==
      if FirstOf(g.selected, linkType).Some? then FirstOf(g.selected, linkType)
      else FirstSelection(answers[..Asked(g, answers)], linkType)
    decreases |answers|
  {
    if answers != [] {
      var next := Merge(g, answers[0]);
      var n := Asked(g, answers);
      ReasonsKeepSelected(
        g.(candidates := g.candidates + NewCandidates(answers[0].candidates, TypesOf(g.selected)),
           selected := SelectedWith(g.selected, answers[0].selected)),
        answers[0].reasons);
      SelectedWithKeepsFirst(g.selected, answers[0].selected, linkType);
      assert answers[..n][0] == answers[0];
      if Stops(next, answers[0]) {
        assert answers[..n][1..] == [];
      } else {
        EarliestProviderWins(next, answers[1..], linkType);
        assert answers[..n][1..] == answers[1..][..n - 1];
      }
    }
  }

  /** The chain selects at most one asset a type: the one of the earliest provider asked that selects the
      type at all. */
  lemma ChainSelectsTheEarliest(answers: seq<Answer>, linkType: string)
    ensures var selected := ChainResult(answers).selected;
      && OnePerType(selected)
      && FirstOf(selected, linkType) == FirstSelection(answers[..Asked(NOTHING, answers)], linkType)
  {
    if answers != [] {
      EarliestProviderWins(NOTHING, answers, linkType);
    }
  }

  // ---- which candidates reach validation ----

  /** The candidates of a type from the providers up to and including the first that selects it. */
  function CandidatesUntilSelected(answers: seq<Answer>, linkType: string): seq<PromotionAsset> {
    if answers == [] then []
    else
      Typed(answers[0].candidates, linkType)
        + if FirstOf(answers[0].selected, linkType).Some? then [] else CandidatesUntilSelected(answers[1..], linkType)
  }

  lemma {:induction false} TypedAppend(x: seq<PromotionAsset>, y: seq<PromotionAsset>, linkType: string)
    ensures Typed(x + y, linkType) == Typed(x, linkType) + Typed(y, linkType)
  {
    if x == [] {
      assert x + y == y;
    } else {
      TypedAppend(x[1..], y, linkType);
      assert (x + y)[0] == x[0] && (x + y)[1..] == x[1..] + y;
    }
  }

  lemma {:induction false} NewCandidatesOfType(candidates: seq<PromotionAsset>, taken: set<string>, linkType: string)
    ensures Typed(NewCandidates(candidates, taken), linkType) == if linkType in taken then []
        else Typed(candidates, linkType)
    decreases |candidates|
  {
    if candidates != [] {
      var (front, last) := (candidates[..|candidates| - 1], candidates[|candidates| - 1]);
      assert candidates == front + [last];
      NewCandidatesOfType(front, taken, linkType);
      TypedAppend(front, [last], linkType);
      TypedAppend(NewCandidates(front, taken), [last], linkType);
    }
  }

  lemma {:induction false} GatheredCandidates(g: Gathered, answers: seq<Answer>, linkType: string)
    ensures Typed(Gather(g, answers).candidates, linkType) ==
      Typed(g.candidates, linkType)
        + if linkType in TypesOf(g.selected) then []
            else CandidatesUntilSelected(answers[..Asked(g, answers)], linkType)
    decreases |answers|
  {
    hide Typed;
    if answers != [] {
      var answer, next, n := answers[0], Merge(g, answers[0]), Asked(g, answers);
      ReasonsKeepSelected(
        g.(candidates := g.candidates + NewCandidates(answer.candidates, TypesOf(g.selected)),
           selected := SelectedWith(g.selected, answer.selected)),
        answer.reasons);
      NewCandidatesOfType(answer.candidates, TypesOf(g.selected), linkType);
      TypedAppend(g.candidates, NewCandidates(answer.candidates, TypesOf(g.selected)), linkType);
      SelectedTypesGrow(g.selected, answer.selected, linkType);
      assert answers[..n][0] == answer;
      if Stops(next, answer) {
        assert answers[..n][1..] == [];
      } else {
        GatheredCandidates(next, answers[1..], linkType);
        assert answers[..n][1..] == answers[1..][..n - 1];
      }
    }
  }

  lemma SelectedTypesGrow(selected: seq<PromotionAsset>, more: seq<PromotionAsset>, linkType: string)
    ensures linkType in TypesOf(SelectedWith(selected, more)) <==>
      linkType in TypesOf(selected) || FirstOf(more, linkType).Some?
  {
    SelectedWithKeepsFirst(selected, more, linkType);
    SomeOfType(selected, linkType);
    SomeOfType(SelectedWith(selected, more), linkType);
  }

  lemma {:induction false} SomeOfType(assets: seq<PromotionAsset>, linkType: string)
    ensures FirstOf(assets, linkType).Some? <==> linkType in TypesOf(assets)
  {
    if assets != [] {
      FirstOfAppend(assets[..|assets| - 1], assets[|assets| - 1], linkType);
      SomeOfType(assets[..|assets| - 1], linkType);
      assert assets == assets[..|assets| - 1] + [assets[|assets| - 1]];
      TypesOfOneMore(assets[..|assets| - 1], assets[|assets| - 1]);
    }
  }

  /**
   * Chain and pipeline together: a run is ready exactly when some type is expected and each expected type was offered
   * exactly once, counting every provider asked up to the first that selects it, by a candidate that is valid.
   */
  lemma ChainIsReadyExactlyWhenOfferedOnce(task: Wanted, answers: seq<Answer>)
    ensures var raw := ChainResult(answers);
      var asked := answers[..Asked(NOTHING, answers)];
      Processed(task, raw).status == Ready <==>
        && raw.expectedTypes != []
        && forall t :: t in raw.expectedTypes ==>
             && |CandidatesUntilSelected(asked, t)| == 1
             && Fits(task, CandidatesUntilSelected(asked, t)[0])
  {
    hide Typed, InvalidReason, Processed, CandidatesUntilSelected, OnlyFitting, Fits;
    var raw := ChainResult(answers);
    ReadyExactlyWhenAllAccepted(task, raw);
    if answers != [] {
      forall t ensures Typed(raw.candidates, t) == CandidatesUntilSelected(answers[..Asked(NOTHING, answers)], t) {
        GatheredCandidates(NOTHING, answers, t);
        NothingTyped(t);
      }
    }
    forall t ensures OnlyFitting(task, raw.candidates, t)
      <==> |Typed(raw.candidates, t)| == 1 && Fits(task, Typed(raw.candidates, t)[0])
    {
      AcceptedIsOnlyFitting(task, raw.candidates, t);
      if |Typed(raw.candidates, t)| == 1 {
        CheckIsExact(task, Typed(raw.candidates, t)[0]);
      }
    }
  }

  lemma NothingTyped(linkType: string)
    ensures Typed([], linkType) == []
    ensures linkType !in TypesOf([])
  {
  }

  /** A type offered more than once, say rejected by one provider and then found by the next, sends the
      run to review. */
  lemma OfferedTwiceIsReviewed(task: Wanted, answers: seq<Answer>, linkType: string)
    requires linkType in ChainResult(answers).expectedTypes
    requires |CandidatesUntilSelected(answers[..Asked(NOTHING, answers)], linkType)| > 1
    ensures Processed(task, ChainResult(answers)).status == ManualReview
  {
    hide Selected, Missing, LinksOf, PerType;
    var raw := ChainResult(answers);
    GatheredCandidates(NOTHING, answers, linkType);
    NothingTyped(linkType);
    assert Judge(task, raw.candidates, linkType).Several?;
    assert AnySeveral(task, raw.candidates, raw.expectedTypes);
  }

  lemma OneMoreCandidate(candidate: PromotionAsset, reason: (string, string), g: Gathered)
    ensures NewCandidates([candidate], {}) == [candidate]
    ensures SelectedWith([], [candidate]) == [candidate] && SelectedWith([], []) == []
    ensures reason.0 !in TypesOf(g.selected) && reason.0 !in g.missing ==>
      WithReasons(g, [reason])
          == g.(missing := g.missing[reason.0 := reason.1], missingTypes := g.missingTypes + [reason.0])
  {
    assert [candidate][..0] == [] && [reason][..0] == [];
    NothingTyped(candidate.linkType);
  }

  lemma RejectionIsGathered(rejected: PromotionAsset)
    ensures Merge(NOTHING, Answer(Unusable, [rejected], [], [("IAA", "URL_INVALID")]))
      == Gathered([], [rejected], map["IAA" := "URL_INVALID"], ["IAA"])
  {
    hide NewCandidates, SelectedWith, WithReasons;
    NothingTyped("IAA");
    assert TypesOf([]) == {};
    OneMoreCandidate(rejected, ("IAA", "URL_INVALID"), Gathered([], [rejected], map[], []));
    assert NOTHING.candidates + [rejected] == [rejected];
  }

  lemma FindIsGathered(rejected: PromotionAsset, found: PromotionAsset)
    ensures Merge(
        Gathered([], [rejected], map["IAA" := "URL_INVALID"], ["IAA"]), Answer(Complete, [found], [found], []))
      == Gathered([found], [rejected, found], map["IAA" := "URL_INVALID"], ["IAA"])
  {
    hide NewCandidates, SelectedWith;
    assert TypesOf([]) == {};
    OneMoreCandidate(found, ("", ""), NOTHING);
  }

  /** A first provider that rejects what it offers, and a second that finds and selects. */
  function RejectedThenFound(rejected: PromotionAsset, found: PromotionAsset): seq<Answer> {
    [Answer(Unusable, [rejected], [], [("IAA", "URL_INVALID")]), Answer(Complete, [found], [found], [])]
  }

  lemma BothAreAsked(rejected: PromotionAsset, found: PromotionAsset)
    requires rejected.linkType == found.linkType == "IAA"
    ensures var answers := RejectedThenFound(rejected, found);
      && Asked(NOTHING, answers) == 2
      && Gather(NOTHING, answers) == Gathered([found], [rejected, found], map["IAA" := "URL_INVALID"], ["IAA"])
  {
    hide Merge;
    var answers := RejectedThenFound(rejected, found);
    var g := Merge(NOTHING, answers[0]);
    RejectionIsGathered(rejected);
    assert TypesOf([]) == {} && "IAA" !in TypesOf(g.selected);
    assert !Stops(g, answers[0]);
    FindIsGathered(rejected, found);
    assert answers[1..] == [answers[1]];
  }

  /** The chain selects what the second found, and the run ends in review all the same. */
  lemma RejectedThenFoundIsReviewed(task: Wanted, rejected: PromotionAsset, found: PromotionAsset)
    requires rejected.linkType == found.linkType == "IAA"
    ensures var raw := ChainResult(RejectedThenFound(rejected, found));
      && raw.status == Partial && raw.selected == [found] && raw.candidates == [rejected, found]
      && Processed(task, raw).status == ManualReview
  {
    hide Processed, Gather, Asked, Typed, CandidatesUntilSelected;
    var answers := RejectedThenFound(rejected, found);
    BothAreAsked(rejected, found);
    var raw := ChainResult(answers);
    assert "IAA" in Gather(NOTHING, answers).missing;
    assert SelectedTypes(raw.selected) == ["IAA"] && "IAA" in raw.expectedTypes;
    GatheredCandidates(NOTHING, answers, "IAA");
    NothingTyped("IAA");
    BothAreOfType(rejected, found);
    assert [] + CandidatesUntilSelected(answers[..2], "IAA") == CandidatesUntilSelected(answers[..2], "IAA");
    OfferedTwiceIsReviewed(task, answers, "IAA");
  }

  lemma BothAreOfType(x: PromotionAsset, y: PromotionAsset)
    requires x.linkType == y.linkType
    ensures Typed([x, y], x.linkType) == [x, y]
  {
    var (first, second) := ([x], [y]);
    assert first + second == [x, y] && first[1..] == [] && second[1..] == [];
    assert Typed(first, x.linkType) == [x] && Typed(second, x.linkType) == [y];
    TypedAppend(first, second, x.linkType);
  }
}
