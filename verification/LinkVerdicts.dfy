/** How a run of the link pipeline ends and what it reports, in terms of the candidates alone. */
module LinkVerdicts {
  import opened Basics
  import opened Sorting
  import opened LinkAcquisition

  /** At least two candidates of the type. */
  predicate SeveralOf(candidates: seq<PromotionAsset>, t: string) {
    exists i, j :: 0 <= i < j < |candidates| && candidates[i].linkType == candidates[j].linkType == t
  }

  predicate NoneOf(candidates: seq<PromotionAsset>, t: string) {
    forall i :: 0 <= i < |candidates| ==> candidates[i].linkType != t
  }

  /** None, exactly one, or several. */
  lemma {:induction false} SeveralAreTyped(candidates: seq<PromotionAsset>, t: string)
    ensures |Typed(candidates, t)| > 1 <==> SeveralOf(candidates, t)
  {
    TypedCounts(candidates, t);
    if |Typed(candidates, t)| > 1 {
      TypedPositions(candidates, t);
    } else if |Typed(candidates, t)| == 1 {
      var k :| 0 <= k < |candidates| && OnlyOne(candidates, t, k);
    }
  }

  lemma {:induction false} TypedPositions(candidates: seq<PromotionAsset>, t: string)
    requires |Typed(candidates, t)| > 1
    ensures SeveralOf(candidates, t)
  {
    var rest := candidates[1..];
    assert forall i :: 0 < i < |candidates| ==> candidates[i] == rest[i - 1];
    if candidates[0].linkType == t {
      TypedCounts(rest, t);
      var j :| 0 <= j < |rest| && rest[j].linkType == t;
      assert candidates[0].linkType == candidates[j + 1].linkType == t;
    } else {
      TypedPositions(rest, t);
      var i, j :| 0 <= i < j < |rest| && rest[i].linkType == rest[j].linkType == t;
      assert candidates[i + 1].linkType == candidates[j + 1].linkType == t;
    }
  }

  // ---- how a run ends ----

  ghost predicate AnyFits(task: Wanted, raw: Acquisition) {
    exists t :: t in raw.expectedTypes && OnlyFitting(task, raw.candidates, t)
  }

  ghost predicate AllFit(task: Wanted, raw: Acquisition) {
    forall t :: t in raw.expectedTypes ==> OnlyFitting(task, raw.candidates, t)
  }

  ghost predicate AnyRepeated(raw: Acquisition) {
    exists t :: t in raw.expectedTypes && SeveralOf(raw.candidates, t)
  }

  /**
   * How any run ends. Several candidates of an expected type, or candidates none of which can be used, go to review;
   * without a candidate there are no links; otherwise the run is ready when every expected type has its link, and
   * has some links when not. With no type expected it never is ready.
   */
  lemma RunEnds(task: Wanted, raw: Acquisition)
    ensures Processed(task, raw).status ==
      if AnyRepeated(raw) then ManualReview
      else if raw.expectedTypes == [] then (if raw.missing != map[] then ManualReview else NoLinks)
      else if AllFit(task, raw) then Ready
      else if AnyFits(task, raw) then SomeLinks
      else if raw.candidates != [] then ManualReview
      else NoLinks
  {
    hide InvalidReason, LinksOf, Typed, OnlyFitting, Missing, PerType, SeveralOf;
    FrozenLinksAreAccepted(task, raw);
    SelectedCount(task, raw.candidates, raw.expectedTypes);
    SelectedAreConfirmable(task, raw.candidates, raw.expectedTypes);
    var linkSet := Processed(task, raw).linkSet;
    assert raw.expectedTypes != [] ==> raw.expectedTypes[0] in raw.expectedTypes;
    forall t
      ensures Judge(task, raw.candidates, t).Accepted? <==> OnlyFitting(task, raw.candidates, t)
      ensures Judge(task, raw.candidates, t).Several? <==> SeveralOf(raw.candidates, t)
    {
      AcceptedIsOnlyFitting(task, raw.candidates, t);
      SeveralAreTyped(raw.candidates, t);
    }
    var selected := Selected(task, raw.candidates, raw.expectedTypes);
    NothingJudged(task, raw);
    assert AnyFits(task, raw) <==> selected != [] by {
      if selected != [] {
        assert selected[0] in selected;
      }
    }
    assert AnyFits(task, raw) <==> linkSet != map[] by {
      if linkSet != map[] {
        var t :| t in linkSet;
      }
    }
    assert AllFit(task, raw) <==> |selected| == |raw.expectedTypes|;
    assert AnyRepeated(raw) <==> AnySeveral(task, raw.candidates, raw.expectedTypes);
    assert Members(raw.expectedTypes) <= linkSet.Keys <==> AllFit(task, raw) by {
      assert forall t :: t in Members(raw.expectedTypes) <==> t in raw.expectedTypes;
    }
  }

  /** The expected types with one candidate that fits, in order. */
  function Fitting(task: Wanted, candidates: seq<PromotionAsset>, expected: seq<string>): seq<string> {
    if expected == [] then []
    else
      var rest := Fitting(task, candidates, expected[1..]);
      if OnlyFitting(task, candidates, expected[0]) then [expected[0]] + rest else rest
  }

  lemma {:induction false} FittingAppend(task: Wanted, candidates: seq<PromotionAsset>, x: seq<string>, y: seq<string>)
    ensures Fitting(task, candidates, x + y) == Fitting(task, candidates, x) + Fitting(task, candidates, y)
  {
    hide OnlyFitting;
    if x == [] {
      assert x + y == y;
    } else {
      assert (x + y)[0] == x[0] && (x + y)[1..] == x[1..] + y;
      FittingAppend(task, candidates, x[1..], y);
    }
  }

  lemma {:induction false} SelectedAreFitting(task: Wanted, candidates: seq<PromotionAsset>, expected: seq<string>)
    ensures var (selected, types) := (Selected(task, candidates, expected), Fitting(task, candidates, expected));
      |selected| == |types| && forall i :: 0 <= i < |types| ==> selected[i].linkType == types[i]
    decreases |expected|
  {
    hide Judge, OnlyFitting;
    if expected != [] {
      var n := |expected| - 1;
      SelectedAreFitting(task, candidates, expected[..n]);
      assert expected == expected[..n] + [expected[n]];
      FittingAppend(task, candidates, expected[..n], [expected[n]]);
      assert [expected[n]][1..] == [];
      AcceptedIsOnlyFitting(task, candidates, expected[n]);
      AcceptedIsSound(task, candidates, expected[n]);
    }
  }

  /** What validation makes of any acquisition: its status, and the asset of each type that fits, in order. */
  lemma ValidationEnds(task: Wanted, raw: Acquisition)
    ensures var (validated, types) := (ValidatedResult(task, raw), Fitting(task, raw.candidates, raw.expectedTypes));
      && validated.expectedTypes == raw.expectedTypes && validated.candidates == raw.candidates
      && |validated.selected| == |types|
      && (forall i :: 0 <= i < |types| ==> validated.selected[i].linkType == types[i])
      && validated.status ==
        if AnyRepeated(raw) then Unclear
        else if AllFit(task, raw) then Complete
        else if AnyFits(task, raw) then Partial
        else if raw.candidates != [] then Unusable
        else NothingFound
  {
    hide InvalidReason, Typed, OnlyFitting, Missing, SeveralOf;
    SelectedAreFitting(task, raw.candidates, raw.expectedTypes);
    SelectedCount(task, raw.candidates, raw.expectedTypes);
    SelectedAreConfirmable(task, raw.candidates, raw.expectedTypes);
    forall t
      ensures Judge(task, raw.candidates, t).Accepted? <==> OnlyFitting(task, raw.candidates, t)
      ensures Judge(task, raw.candidates, t).Several? <==> SeveralOf(raw.candidates, t)
    {
      AcceptedIsOnlyFitting(task, raw.candidates, t);
      SeveralAreTyped(raw.candidates, t);
    }
    var selected := Selected(task, raw.candidates, raw.expectedTypes);
    assert AnyFits(task, raw) <==> selected != [] by {
      if selected != [] {
        assert selected[0] in selected;
      }
    }
    assert AllFit(task, raw) <==> |selected| == |raw.expectedTypes|;
    assert AnyRepeated(raw) <==> AnySeveral(task, raw.candidates, raw.expectedTypes);
  }

  // ---- what a run reports ----

  /** The word for an expected type: found, several, why its one candidate is refused, or what the provider said. */
  ghost predicate Reported(task: Wanted, raw: Acquisition, t: string, word: string) {
    && (OnlyFitting(task, raw.candidates, t) ==> word == "FOUND")
    && (SeveralOf(raw.candidates, t) ==> word == "MULTIPLE_CANDIDATES")
    && (NoneOf(raw.candidates, t) ==> word == if t in raw.missing then raw.missing[t] else "NOT_FOUND")
    && (forall k :: 0 <= k < |raw.candidates| && OnlyOne(raw.candidates, t, k) && !Fits(task, raw.candidates[k]) ==>
      InvalidReason(task, raw.candidates[k]) == Some(word))
  }

  /** The missing types as the run leaves them: unexpected ones as they came, expected ones unless they were found. */
  lemma {:induction false} MissingReported(task: Wanted, candidates: seq<PromotionAsset>, missing: map<string, string>,
                                           expected: seq<string>, t: string)
    ensures var after := Missing(task, candidates, missing, expected);
      && (t !in expected ==> (t in after <==> t in missing) && (t in after ==> after[t] == missing[t]))
      && (t in expected ==>
        match Judge(task, candidates, t)
        case Several => t in after && after[t] == "MULTIPLE_CANDIDATES"
        case Rejected(_, reason) => t in after && after[t] == reason
        case Absent => t in after && after[t] == if t in missing then missing[t] else "NOT_FOUND"
        case Accepted(_) => t !in after)
    decreases |expected|
  {
    hide Judge;
    if expected != [] {
      var n := |expected| - 1;
      MissingReported(task, candidates, missing, expected[..n], t);
      assert expected == expected[..n] + [expected[n]];
    }
  }

  /** Every expected type is reported by one word; the missing map has exactly those not found, with the same word. */
  lemma RunReports(task: Wanted, raw: Acquisition)
    ensures var result := Processed(task, raw);
      && result.perType.Keys == Members(raw.expectedTypes)
      && (forall t :: t in raw.expectedTypes ==> Reported(task, raw, t, result.perType[t]))
      && (forall t :: t in raw.expectedTypes ==>
        if OnlyFitting(task, raw.candidates, t) then t !in result.missing
        else t in result.missing && result.missing[t] == result.perType[t])
      && (forall t :: t !in raw.expectedTypes ==>
        (t in result.missing <==> t in raw.missing) && (t in result.missing ==> result.missing[t] == raw.missing[t]))
  {
    hide InvalidReason, LinksOf, OverallStatus, Typed, Missing, Judge, OnlyFitting, Reported;
    SelectedAreConfirmable(task, raw.candidates, raw.expectedTypes);
    forall t
      ensures (t in TypesOf(Selected(task, raw.candidates, raw.expectedTypes))) <==>
        (t in raw.expectedTypes && Judge(task, raw.candidates, t).Accepted?)
    {
      TypesSelected(task, raw, t);
    }
    var result := Processed(task, raw);
    forall t | t in raw.expectedTypes
      ensures Reported(task, raw, t, result.perType[t])
      ensures if OnlyFitting(task, raw.candidates, t) then t !in result.missing
        else t in result.missing && result.missing[t] == result.perType[t]
    {
      MissingReported(task, raw.candidates, raw.missing, raw.expectedTypes, t);
      VerdictIsReported(task, raw, t);
    }
    forall t | t !in raw.expectedTypes {
      MissingReported(task, raw.candidates, raw.missing, raw.expectedTypes, t);
    }
  }

  lemma TypesSelected(task: Wanted, raw: Acquisition, t: string)
    ensures t in TypesOf(Selected(task, raw.candidates, raw.expectedTypes)) <==>
      t in raw.expectedTypes && Judge(task, raw.candidates, t).Accepted?
  {
    hide Judge, Selected;
    SelectedAreConfirmable(task, raw.candidates, raw.expectedTypes);
    AcceptedIsSound(task, raw.candidates, t);
  }

  lemma VerdictIsReported(task: Wanted, raw: Acquisition, t: string)
    ensures match Judge(task, raw.candidates, t)
      case Several => Reported(task, raw, t, "MULTIPLE_CANDIDATES") && !OnlyFitting(task, raw.candidates, t)
      case Rejected(_, reason) => Reported(task, raw, t, reason) && !OnlyFitting(task, raw.candidates, t)
      case Absent => !OnlyFitting(task, raw.candidates, t)
        && Reported(task, raw, t, if t in raw.missing then raw.missing[t] else "NOT_FOUND")
      case Accepted(_) => Reported(task, raw, t, "FOUND") && OnlyFitting(task, raw.candidates, t)
  {
    hide InvalidReason, Typed, Fits;
    AcceptedIsOnlyFitting(task, raw.candidates, t);
    SeveralAreTyped(raw.candidates, t);
    TypedCounts(raw.candidates, t);
    forall k | 0 <= k < |raw.candidates| && OnlyOne(raw.candidates, t, k) {
      CheckIsExact(task, raw.candidates[k]);
    }
  }
}
