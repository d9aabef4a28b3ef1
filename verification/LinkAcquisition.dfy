/** Acquiring promotion links: providers in turn, validation of what they found, and the frozen link set. */
module LinkAcquisition {
  import opened Basics
  import opened Sorting
  import opened Text

  datatype AssetStatus = Discovered | Validated | Ambiguous | Failed | ExpectedAbsent | Unverified

  datatype Verification = NotVerified | Verified | Refuted

  /** A promotion link that was found; what it is never changes, what is known about it does. */
  class PromotionAsset {
    const taskId: string
    const sourcePlatform: string
    const dramaName: string
    const linkType: string
    const promotionUrl: string
    var acquisitionStatus: AssetStatus
    var verificationStatus: Verification

    constructor (taskId: string, sourcePlatform: string, dramaName: string, linkType: string, promotionUrl: string)
      ensures this.taskId == taskId && this.sourcePlatform == sourcePlatform && this.dramaName == dramaName
      ensures this.linkType == linkType && this.promotionUrl == promotionUrl
      ensures acquisitionStatus == Discovered && verificationStatus == NotVerified
    {
      this.taskId, this.sourcePlatform, this.dramaName := taskId, sourcePlatform, dramaName;
      this.linkType, this.promotionUrl := linkType, promotionUrl;
      acquisitionStatus, verificationStatus := Discovered, NotVerified;
    }

    predicate Confirmed()
      reads this
    {
      acquisitionStatus == Validated && verificationStatus == Verified
    }
  }

  /** The task a link is acquired for, with the way its drama name is folded for comparison. */
  datatype Wanted = Wanted(taskId: string, platform: string, dramaName: string, fold: string -> string)

  datatype AcquisitionStatus = Complete | Partial | Unclear | NothingFound | Unusable

  datatype Acquisition = Acquisition(
    status: AcquisitionStatus,
    expectedTypes: seq<string>,
    candidates: seq<PromotionAsset>,
    selected: seq<PromotionAsset>,
    missing: map<string, string>)

  // ---- checks on one candidate ----

  predicate ValidTomatoUrl(url: string) {
    "aweme://" <= url && '?' in url && '=' in AfterFirst(url, '?')
  }

  function AfterFirst(text: string, c: char): string {
    if text == [] then "" else if text[0] == c then text[1..] else AfterFirst(text[1..], c)
  }

  predicate ValidUrl(platform: string, url: string) {
    if "mock://" <= url then true
    else if platform == "TOMATO" then ValidTomatoUrl(url)
    else Strip(url) != ""
  }

  function InvalidReason(task: Wanted, candidate: PromotionAsset): Option<string> {
    if candidate.taskId != task.taskId then Some("TASK_IDENTITY_MISMATCH")
    else if candidate.sourcePlatform != task.platform then Some("PLATFORM_IDENTITY_MISMATCH")
    else if task.fold(candidate.dramaName) != task.fold(task.dramaName) then Some("DRAMA_IDENTITY_MISMATCH")
    else if !ValidUrl(candidate.sourcePlatform, candidate.promotionUrl) then Some("INVALID_URL")
    else None
  }

  function Typed(candidates: seq<PromotionAsset>, linkType: string): seq<PromotionAsset> {
    if candidates == [] then []
    else
      var rest := Typed(candidates[1..], linkType);
      if candidates[0].linkType == linkType then [candidates[0]] + rest else rest
  }

  // ---- the verdict on a link type ----

  datatype Verdict = Several | Absent | Rejected(asset: PromotionAsset,
      reason: string) | Accepted(asset: PromotionAsset)

  function Judge(task: Wanted, candidates: seq<PromotionAsset>, linkType: string): Verdict {
    var typed := Typed(candidates, linkType);
    if |typed| > 1 then Several
    else if typed == [] then Absent
    else
      match InvalidReason(task, typed[0])
      case Some(reason) => Rejected(typed[0], reason)
      case None => Accepted(typed[0])
  }

  function Selected(task: Wanted, candidates: seq<PromotionAsset>, expected: seq<string>): seq<PromotionAsset> {
    if expected == [] then []
    else
      var earlier := Selected(task, candidates, expected[..|expected| - 1]);
      var verdict := Judge(task, candidates, expected[|expected| - 1]);
      if verdict.Accepted? then earlier + [verdict.asset] else earlier
  }

  function MissingAfter(missing: map<string, string>, linkType: string, verdict: Verdict): map<string, string> {
    match verdict
    case Several => missing[linkType := "MULTIPLE_CANDIDATES"]
    case Absent => if linkType in missing then missing else missing[linkType := "NOT_FOUND"]
    case Rejected(_, reason) => missing[linkType := reason]
    case Accepted(_) => missing - {linkType}
  }

  function Missing(task: Wanted, candidates: seq<PromotionAsset>, missing: map<string, string>,
      expected: seq<string>): map<string, string>
    decreases |expected|
  {
    if expected == [] then missing
    else
      var last := expected[|expected| - 1];
      MissingAfter(Missing(task, candidates, missing, expected[..|expected| - 1]), last, Judge(task, candidates, last))
  }

  predicate AnySeveral(task: Wanted, candidates: seq<PromotionAsset>, expected: seq<string>) {
    exists t :: t in expected && Judge(task, candidates, t).Several?
  }

  function ValidatedStatus(several: bool, selected: nat, expected: nat, candidates: nat): AcquisitionStatus {
    if several then Unclear
    else if selected == expected then Complete
    else if selected > 0 then Partial
    else if candidates > 0 then Unusable
    else NothingFound
  }

  /** The result of validation, apart from the marks it leaves on the candidates. */
  function ValidatedResult(task: Wanted, result: Acquisition): Acquisition {
    var selected := Selected(task, result.candidates, result.expectedTypes);
    Acquisition(
      ValidatedStatus(AnySeveral(task, result.candidates, result.expectedTypes), |selected|, |result.expectedTypes|,
          |result.candidates|),
      result.expectedTypes, result.candidates, selected,
      Missing(task, result.candidates, result.missing, result.expectedTypes))
  }

  /** What validation leaves on a candidate of an expected type. */
  twostate predicate Marked(task: Wanted, candidates: seq<PromotionAsset>, c: PromotionAsset, judged: bool)
    reads c
  {
    var verdict := Judge(task, candidates, c.linkType);
    if !judged || verdict.Absent? then
      c.acquisitionStatus == old(c.acquisitionStatus) && c.verificationStatus == old(c.verificationStatus)
    else if verdict.Several? then c.acquisitionStatus == Ambiguous && c.verificationStatus == old(c.verificationStatus)
    else if verdict.Rejected? then c.acquisitionStatus == AssetStatus.Failed && c.verificationStatus == Refuted
    else c.Confirmed()
  }

  // ---- freezing ----

  function TypesOf(assets: seq<PromotionAsset>): set<string> {
    set a | a in assets :: a.linkType
  }

  /** Link type to URL of the assets given, later ones winning. */
  function LinksOf(assets: seq<PromotionAsset>): map<string, string> {
    if assets == [] then map[]
    else
      var last := assets[|assets| - 1];
      LinksOf(assets[..|assets| - 1])[last.linkType := last.promotionUrl]
  }

  datatype PipelineStatus = Ready | ManualReview | NoLinks | SomeLinks

  datatype PipelineResult = PipelineResult(
    status: PipelineStatus,
    linkSet: map<string, string>,
    missing: map<string, string>,
    perType: map<string, string>)

  function OverallStatus(result: Acquisition, linkSet: map<string, string>): PipelineStatus {
    if result.status == Unclear then ManualReview
    else if result.status == Unusable && result.candidates != [] && linkSet == map[] then ManualReview
    else if result.status == NothingFound && linkSet == map[] then NoLinks
    else if result.expectedTypes != [] && Members(result.expectedTypes) <= linkSet.Keys then Ready
    else if linkSet != map[] then SomeLinks
    else if result.missing != map[] then ManualReview
    else NoLinks
  }

  function PerType(result: Acquisition): map<string, string> {
    map t | t in result.expectedTypes ::
      if t in TypesOf(result.selected) then "FOUND"
      else if t in result.missing then result.missing[t]
      else "NOT_FOUND"
  }

  /** The whole pipeline after the providers: validate, freeze, decide. */
  function Processed(task: Wanted, raw: Acquisition): PipelineResult {
    var validated := ValidatedResult(task, raw);
    var linkSet := LinksOf(validated.selected);
    PipelineResult(OverallStatus(validated, linkSet), linkSet, validated.missing, PerType(validated))
  }

  // ---- the services ----

  /** Judge each expected type, mark its candidates, and keep the accepted ones. */
  method Validate(task: Wanted, result: Acquisition) returns (validated: Acquisition)
    modifies result.candidates
    ensures validated == ValidatedResult(task, result)
    ensures forall c :: c in result.candidates ==>
      Marked(task, result.candidates, c, c.linkType in result.expectedTypes)
  {
    hide Judge, Selected, Missing, Members;
    var selected: seq<PromotionAsset> := [];
    var missing := result.missing;
    var ambiguous := false;
    var expected := result.expectedTypes;
    NothingJudged(task, result);
    for i := 0 to |expected|
      invariant selected == Selected(task, result.candidates, expected[..i])
      invariant missing == Missing(task, result.candidates, result.missing, expected[..i])
      invariant ambiguous <==> AnySeveral(task, result.candidates, expected[..i])
      invariant forall c :: c in result.candidates ==> Marked(task, result.candidates, c, c.linkType in expected[..i])
    {
      var linkType := expected[i];
      OneMoreJudged(task, result, i);
      var verdict := JudgeAndMark(task, result.candidates, linkType);
      missing := MissingAfter(missing, linkType, verdict);
      ambiguous := ambiguous || verdict.Several?;
      if verdict.Accepted? {
        selected := selected + [verdict.asset];
      }
      assert expected[..i + 1] == expected[..i] + [linkType];
    }
    assert expected[..|expected|] == expected;
    validated := Acquisition(
      ValidatedStatus(ambiguous, |selected|, |expected|, |result.candidates|),
      expected, result.candidates, selected, missing);
  }

  lemma NothingJudged(task: Wanted, result: Acquisition)
    ensures Selected(task, result.candidates, []) == []
    ensures Missing(task, result.candidates, result.missing, []) == result.missing
  {
  }

  lemma OneMoreJudged(task: Wanted, result: Acquisition, i: nat)
    requires i < |result.expectedTypes|
    ensures var (done, more, t) := (result.expectedTypes[..i], result.expectedTypes[..i + 1], result.expectedTypes[i]);
      var verdict := Judge(task, result.candidates, t);
      && Selected(task, result.candidates, more)
          == Selected(task, result.candidates, done) + (if verdict.Accepted? then [verdict.asset] else [])
      && Missing(task, result.candidates, result.missing, more)
         == MissingAfter(Missing(task, result.candidates, result.missing, done), t, verdict)
      && (AnySeveral(task, result.candidates, more) <==> AnySeveral(task, result.candidates, done) || verdict.Several?)
  {
    hide Judge;
    var more := result.expectedTypes[..i + 1];
    assert more[..i] == result.expectedTypes[..i];
    assert more == result.expectedTypes[..i] + [result.expectedTypes[i]];
  }

  /** The verdict on one type, with its candidates marked. */
  method JudgeAndMark(task: Wanted, candidates: seq<PromotionAsset>, linkType: string) returns (verdict: Verdict)
    modifies candidates
    ensures verdict == Judge(task, candidates, linkType)
    ensures forall c :: c in candidates ==> Marked(task, candidates, c, c.linkType == linkType)
  {
    var typed := Typed(candidates, linkType);
    TypedAreTheType(candidates, linkType);
    if |typed| > 1 {
      for j := 0 to |typed|
        invariant forall c :: c in candidates ==> c.verificationStatus == old(c.verificationStatus)
        invariant forall c :: c in candidates ==> c.acquisitionStatus == if c in typed[..j] then Ambiguous
            else old(c.acquisitionStatus)
      {
        assert typed[j] in typed;
        typed[j].acquisitionStatus := Ambiguous;
      }
      assert typed[..|typed|] == typed;
      return Several;
    }
    if typed == [] {
      return Absent;
    }
    var candidate := typed[0];
    assert candidate in typed;
    var reason := InvalidReason(task, candidate);
    if reason.Some? {
      candidate.acquisitionStatus := AssetStatus.Failed;
      candidate.verificationStatus := Refuted;
      return Rejected(candidate, reason.value);
    }
    candidate.acquisitionStatus := Validated;
    candidate.verificationStatus := Verified;
    verdict := Accepted(candidate);
  }

  lemma {:induction false} TypedAreTheType(candidates: seq<PromotionAsset>, linkType: string)
    ensures forall c :: c in Typed(candidates, linkType) <==> c in candidates && c.linkType == linkType
  {
    if candidates != [] {
      TypedAreTheType(candidates[1..], linkType);
      assert candidates == [candidates[0]] + candidates[1..];
    }
  }

  /** Keep the URLs of the selected assets that both checks confirmed. */
  method FreezeLinkSet(result: Acquisition) returns (linkSet: map<string, string>)
    requires forall a :: a in result.selected ==> a.Confirmed() && a.promotionUrl != ""
    ensures linkSet == LinksOf(result.selected)
  {
    linkSet := map[];
    for i := 0 to |result.selected|
      invariant linkSet == LinksOf(result.selected[..i])
    {
      var asset := result.selected[i];
      assert result.selected[..i + 1][..i] == result.selected[..i];
      if asset.acquisitionStatus == Validated && asset.verificationStatus == Verified && asset.promotionUrl != "" {
        linkSet := linkSet[asset.linkType := asset.promotionUrl];
      }
    }
    assert result.selected[..|result.selected|] == result.selected;
  }

  /** Validate what was acquired, freeze the confirmed links, and decide how the run ends. */
  method RunPipeline(task: Wanted, raw: Acquisition) returns (result: PipelineResult)
    modifies raw.candidates
    ensures result == Processed(task, raw)
  {
    hide OverallStatus, PerType, LinksOf;
    var validated := Validate(task, raw);
    SelectedAreConfirmable(task, raw.candidates, raw.expectedTypes);
    forall a | a in validated.selected ensures a.Confirmed() && a.promotionUrl != "" {
      assert Marked(task, raw.candidates, a, a.linkType in raw.expectedTypes);
    }
    var linkSet := FreezeLinkSet(validated);
    result := PipelineResult(OverallStatus(validated, linkSet), linkSet, validated.missing, PerType(validated));
  }

  /** Selected assets are the accepted candidates of expected types, and their URLs are not empty. */
  lemma {:induction false} SelectedAreConfirmable(task: Wanted, candidates: seq<PromotionAsset>, expected: seq<string>)
    ensures forall a :: a in Selected(task, candidates, expected) <==>
      exists t :: t in expected && Judge(task, candidates, t) == Accepted(a)
    ensures forall a :: a in Selected(task, candidates, expected) ==>
      a in candidates && a.linkType in expected && a.promotionUrl != ""
          && Judge(task, candidates, a.linkType) == Accepted(a)
    decreases |expected|
  {
    hide Judge;
    if expected != [] {
      var (earlier, last) := (expected[..|expected| - 1], expected[|expected| - 1]);
      SelectedAreConfirmable(task, candidates, earlier);
      assert expected == earlier + [last];
      AcceptedIsSound(task, candidates, last);
    }
  }

  lemma AcceptedIsSound(task: Wanted, candidates: seq<PromotionAsset>, linkType: string)
    ensures var verdict := Judge(task, candidates, linkType);
      verdict.Accepted? ==>
        verdict.asset in candidates && verdict.asset.linkType == linkType && verdict.asset.promotionUrl != ""
  {
    TypedAreTheType(candidates, linkType);
    var verdict := Judge(task, candidates, linkType);
    if verdict.Accepted? {
      assert verdict.asset in Typed(candidates, linkType);
      EmptyUrlIsInvalid(verdict.asset.sourcePlatform);
    }
  }

  lemma EmptyUrlIsInvalid(platform: string)
    ensures !ValidUrl(platform, "")
  {
  }

  // ---- when a run is ready ----

  lemma {:induction false} LinksAreOfAssets(assets: seq<PromotionAsset>)
    ensures LinksOf(assets).Keys == TypesOf(assets)
    ensures (forall a, b :: a in assets && b in assets && a.linkType == b.linkType ==> a == b) ==>
      forall a :: a in assets ==> a.linkType in LinksOf(assets) && LinksOf(assets)[a.linkType] == a.promotionUrl
    decreases |assets|
  {
    if assets != [] {
      var (earlier, last) := (assets[..|assets| - 1], assets[|assets| - 1]);
      LinksAreOfAssets(earlier);
      assert assets == earlier + [last];
      assert TypesOf(assets) == TypesOf(earlier) + {last.linkType};
    }
  }

  /** A mock link, a link of the app with a value in its query, or, on other platforms, any text. */
  predicate GoodUrl(platform: string, url: string) {
    || "mock://" <= url
    || (platform == "TOMATO" && "aweme://" <= url
        && exists i, j :: 0 <= i < j < |url| && url[i] == '?' && url[j] == '=')
    || (platform != "TOMATO" && exists i :: 0 <= i < |url| && !IsSpace(url[i]))
  }

  /** The candidate is for the task: its id, its platform, its drama, and a usable URL. */
  predicate Fits(task: Wanted, c: PromotionAsset) {
    && c.taskId == task.taskId && c.sourcePlatform == task.platform
    && task.fold(c.dramaName) == task.fold(task.dramaName) && GoodUrl(task.platform, c.promotionUrl)
  }

  lemma {:induction false} QueryHasValue(url: string)
    ensures '?' in url && '=' in AfterFirst(url, '?')
      <==> exists i, j :: 0 <= i < j < |url| && url[i] == '?' && url[j] == '='
  {
    if url != "" {
      QueryHasValue(url[1..]);
      var rest := url[1..];
      if url[0] == '?' {
        if '=' in rest {
          var j :| 0 <= j < |rest| && rest[j] == '=';
          assert url[0] == '?' && url[j + 1] == '=';
        }
      } else {
        if i, j :| 0 <= i < j < |rest| && rest[i] == '?' && rest[j] == '=' {
          assert url[i + 1] == '?' && url[j + 1] == '=';
        }
        if i, j :| 0 <= i < j < |url| && url[i] == '?' && url[j] == '=' {
          assert rest[i - 1] == '?' && rest[j - 1] == '=';
        }
      }
    }
  }

  lemma {:induction false} StripOfBlank(url: string)
    ensures Strip(url) != "" <==> exists i :: 0 <= i < |url| && !IsSpace(url[i])
  {
    if url != "" {
      if IsSpace(url[0]) {
        StripOfBlank(url[1..]);
        assert forall i :: 0 < i < |url| ==> url[i] == url[1..][i - 1];
      } else {
        VisibleStart(url);
      }
    }
  }

  /** The checks pass exactly the candidates that fit, and name the first thing that does not. */
  lemma CheckIsExact(task: Wanted, c: PromotionAsset)
    ensures InvalidReason(task, c) == None <==> Fits(task, c)
    ensures InvalidReason(task, c) == Some("TASK_IDENTITY_MISMATCH") <==> c.taskId != task.taskId
    ensures InvalidReason(task, c) == Some("PLATFORM_IDENTITY_MISMATCH") <==>
      c.taskId == task.taskId && c.sourcePlatform != task.platform
    ensures InvalidReason(task, c) == Some("DRAMA_IDENTITY_MISMATCH") <==>
      && c.taskId == task.taskId && c.sourcePlatform == task.platform
      && task.fold(c.dramaName) != task.fold(task.dramaName)
    ensures InvalidReason(task, c) == Some("INVALID_URL") <==>
      && c.taskId == task.taskId && c.sourcePlatform == task.platform
      && task.fold(c.dramaName) == task.fold(task.dramaName) && !GoodUrl(task.platform, c.promotionUrl)
  {
    hide Strip, AfterFirst, IsSpace;
    QueryHasValue(c.promotionUrl);
    StripOfBlank(c.promotionUrl);
  }

  /** The candidate at `k` is the only one of the type. */
  predicate OnlyOne(candidates: seq<PromotionAsset>, t: string, k: nat) {
    && k < |candidates| && candidates[k].linkType == t
    && forall j :: 0 <= j < |candidates| && j != k ==> candidates[j].linkType != t
  }

  /** The type has one candidate, and that one fits. */
  predicate OnlyFitting(task: Wanted, candidates: seq<PromotionAsset>, t: string) {
    exists k :: 0 <= k < |candidates| && OnlyOne(candidates, t, k) && Fits(task, candidates[k])
  }

  lemma {:induction false} TypedCounts(candidates: seq<PromotionAsset>, t: string)
    ensures Typed(candidates, t) == [] <==> forall i :: 0 <= i < |candidates| ==> candidates[i].linkType != t
    ensures forall k :: 0 <= k < |candidates| && OnlyOne(candidates, t, k) ==> Typed(candidates, t) == [candidates[k]]
    ensures |Typed(candidates, t)| == 1 ==> exists k :: 0 <= k < |candidates| && OnlyOne(candidates, t, k)
  {
    if candidates != [] {
      var rest := candidates[1..];
      TypedCounts(rest, t);
      assert forall i :: 0 < i < |candidates| ==> candidates[i] == rest[i - 1];
      forall k | 0 <= k < |candidates| && OnlyOne(candidates, t, k) ensures Typed(candidates, t) == [candidates[k]] {
        if k > 0 {
          assert OnlyOne(rest, t, k - 1);
        } else {
          assert forall i :: 0 <= i < |rest| ==> rest[i] == candidates[i + 1];
        }
      }
      if |Typed(candidates, t)| == 1 {
        if candidates[0].linkType == t {
          assert OnlyOne(candidates, t, 0);
        } else {
          var k :| 0 <= k < |rest| && OnlyOne(rest, t, k);
          assert OnlyOne(candidates, t, k + 1);
        }
      }
    }
  }

  lemma AcceptedIsOnlyFitting(task: Wanted, candidates: seq<PromotionAsset>, t: string)
    ensures Judge(task, candidates, t).Accepted? <==> OnlyFitting(task, candidates, t)
    ensures |Typed(candidates, t)| == 1 && InvalidReason(task, Typed(candidates, t)[0]).None?
      <==> OnlyFitting(task, candidates, t)
  {
    hide Typed, InvalidReason, Fits;
    TypedCounts(candidates, t);
    forall k | 0 <= k < |candidates| && OnlyOne(candidates, t, k) {
      CheckIsExact(task, candidates[k]);
    }
  }

  /** The frozen set has exactly the expected types with one candidate that fits, each with that candidate's URL. */
  lemma FrozenLinksAreAccepted(task: Wanted, raw: Acquisition)
    ensures var linkSet := Processed(task, raw).linkSet;
      && (forall t :: t in linkSet <==> t in raw.expectedTypes && OnlyFitting(task, raw.candidates, t))
      && (forall t, k :: t in linkSet && 0 <= k < |raw.candidates| && OnlyOne(raw.candidates, t, k) ==>
        linkSet[t] == raw.candidates[k].promotionUrl != "")
  {
    hide InvalidReason, Missing, OverallStatus, PerType, OnlyFitting;
    var selected := Selected(task, raw.candidates, raw.expectedTypes);
    SelectedAreConfirmable(task, raw.candidates, raw.expectedTypes);
    LinksAreOfAssets(selected);
    forall t ensures Judge(task, raw.candidates, t).Accepted? <==> OnlyFitting(task, raw.candidates, t) {
      AcceptedIsOnlyFitting(task, raw.candidates, t);
    }
    forall t | t in raw.expectedTypes && Judge(task, raw.candidates, t).Accepted? ensures t in TypesOf(selected) {
      var a := Judge(task, raw.candidates, t).asset;
      AcceptedIsSound(task, raw.candidates, t);
      assert a in selected;
    }
    forall t, k | t in TypesOf(selected) && 0 <= k < |raw.candidates| && OnlyOne(raw.candidates, t, k)
      ensures LinksOf(selected)[t] == raw.candidates[k].promotionUrl != ""
    {
      TypedCounts(raw.candidates, t);
      var a :| a in selected && a.linkType == t;
      assert Judge(task, raw.candidates, t) == Accepted(a);
    }
  }

  /** A run is ready exactly when a type is expected, and each expected type has one candidate, which is for the
      task's id, platform and drama and has a usable URL. */
  lemma ReadyExactlyWhenAllAccepted(task: Wanted, raw: Acquisition)
    ensures Processed(task, raw).status == Ready
      <==> raw.expectedTypes != [] && forall t :: t in raw.expectedTypes ==> OnlyFitting(task, raw.candidates, t)
    ensures Processed(task, raw).status == Ready ==> Processed(task, raw).linkSet.Keys == Members(raw.expectedTypes)
  {
    hide InvalidReason, Missing, LinksOf, Typed, OnlyFitting;
    FrozenLinksAreAccepted(task, raw);
    SelectedCount(task, raw.candidates, raw.expectedTypes);
    var linkSet := Processed(task, raw).linkSet;
    assert raw.expectedTypes != [] ==> raw.expectedTypes[0] in Members(raw.expectedTypes);
    forall t ensures Judge(task, raw.candidates, t).Accepted? <==> OnlyFitting(task, raw.candidates, t) {
      AcceptedIsOnlyFitting(task, raw.candidates, t);
    }
  }

  lemma {:induction false} SelectedCount(task: Wanted, candidates: seq<PromotionAsset>, expected: seq<string>)
    ensures |Selected(task, candidates, expected)| <= |expected|
    ensures |Selected(task, candidates, expected)| == |expected| <==> forall t :: t in expected ==>
      Judge(task, candidates, t).Accepted?
    decreases |expected|
  {
    hide Judge;
    if expected != [] {
      SelectedCount(task, candidates, expected[..|expected| - 1]);
      assert expected == expected[..|expected| - 1] + [expected[|expected| - 1]];
    }
  }
}
