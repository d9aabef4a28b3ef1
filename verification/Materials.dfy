/** Splitting a number of materials into groups, advertisements and projects. */
module MaterialGroups {
  import opened Basics
  import opened Sorting

  datatype RuleRange = RuleRange(
    min: int,
    max: Option<int>,
    strategy: string,
    baseGroupCount: int,
    copyCount: int,
    groupSizeCap: int,
    targetProjectCount: int)

  datatype MaterialPlan = MaterialPlan(
    baseGroups: int,
    copyCount: int,
    finalGroupCount: int,
    adLimitPerProject: int,
    projectCount: int)

  const DEFAULT_GROUP_SIZE_CAP := 30

  function Max(a: int, b: int): int { if a >= b then a else b }

  function Min(a: int, b: int): int { if a <= b then a else b }

  /** ceil(a / b). */
  function Ceil(a: int, b: int): int
    requires b > 0
  {
    -((-a) / b)
  }

  function CeilToThreeMultiple(value: int): int {
    Ceil(value, 3) * 3
  }

  predicate Covers(min: int, max: Option<int>, count: int) {
    min <= count && (max.None? || count <= max.value)
  }

  predicate Matches(rule: RuleRange, count: int) {
    Covers(rule.min, rule.max, count)
  }

  /** The matching rule with the largest minimum, the first of equals. */
  function MatchRange(rules: seq<RuleRange>, count: int): Option<RuleRange> {
    if rules == [] then None
    else
      var rest := MatchRange(rules[1..], count);
      if !Matches(rules[0], count) then rest
      else if rest.Some? && rest.value.min > rules[0].min then rest
      else Some(rules[0])
  }

  function PositiveCaps(rules: seq<RuleRange>): set<int> {
    set rule | rule in rules && rule.groupSizeCap > 0 :: rule.groupSizeCap
  }

  /** The largest positive group size, or the default. */
  function Cap(rules: seq<RuleRange>): (cap: int)
    ensures cap > 0
    ensures PositiveCaps(rules) == {} ==> cap == DEFAULT_GROUP_SIZE_CAP
    ensures PositiveCaps(rules) != {} ==> cap in PositiveCaps(rules) && forall c :: c in PositiveCaps(rules) ==>
      c <= cap
  {
    if rules == [] then DEFAULT_GROUP_SIZE_CAP
    else
      assert rules == [rules[0]] + rules[1..];
      var cap := Cap(rules[1..]);
      if rules[0].groupSizeCap <= 0 then
        assert PositiveCaps(rules) == PositiveCaps(rules[1..]);
        cap
      else
        assert PositiveCaps(rules) == {rules[0].groupSizeCap} + PositiveCaps(rules[1..]);
        if PositiveCaps(rules[1..]) == {} then rules[0].groupSizeCap else Max(cap, rules[0].groupSizeCap)
  }

  predicate IsTest(rule: RuleRange) {
    "TEST_" <= rule.strategy
  }

  function TestRules(rules: seq<RuleRange>): seq<RuleRange> {
    if rules == [] then [] else (if IsTest(rules[0]) then [rules[0]] else []) + TestRules(rules[1..])
  }

  function CalculateNormal(count: int, rules: seq<RuleRange>): MaterialPlan
    requires count > 0
  {
    match MatchRange(rules, count)
    case None =>
      var groups := CeilToThreeMultiple(Ceil(count, Cap(rules)));
      MaterialPlan(groups, 0, groups, groups / 3, 3)
    case Some(rule) =>
      var base, copies, cap := Max(rule.baseGroupCount, 1), Max(rule.copyCount, 0), Max(rule.groupSizeCap, 1);
      var groups := if Ceil(count, base) <= cap then base * (copies + 1) else CeilToThreeMultiple(Ceil(count, cap));
      MaterialPlan(base, copies, groups, groups / 3, Max(rule.targetProjectCount, 1))
  }

  function PerGroup(count: int, rules: seq<RuleRange>): (size: int)
    ensures size > 0
  {
    match MatchRange(rules, count)
    case None => if count < 20 then 2 else 3
    case Some(rule) => Max(rule.baseGroupCount, 1)
  }

  function CalculateTest(count: int, rules: seq<RuleRange>): MaterialPlan
    requires count > 0
  {
    var groups := Ceil(count, PerGroup(count, rules));
    var limit := Min(10, Ceil(groups, 3));
    MaterialPlan(groups, 0, groups, limit, if limit != 0
        then (CeilIsLeast(groups, 3); CeilIsLeast(count, PerGroup(count, rules)); Ceil(groups, limit)) else 0)
  }

  function Calculate(count: int, rules: seq<RuleRange>): Result<MaterialPlan> {
    if count < 0 then Err(Invalid)
    else if count == 0 then Ok(MaterialPlan(0, 0, 0, 0, 0))
    else if TestRules(rules) != [] then Ok(CalculateTest(count, TestRules(rules)))
    else Ok(CalculateNormal(count, rules))
  }

  /** Ceil(a, b) is the least number of groups of size b that holds a. */
  lemma CeilIsLeast(a: int, b: int)
    requires b > 0
    ensures (Ceil(a, b) - 1) * b < a <= Ceil(a, b) * b
    ensures a > 0 ==> Ceil(a, b) > 0
    ensures forall n :: n * b >= a ==> n >= Ceil(a, b)
  {
    var c := Ceil(a, b);
    assert -a == b * ((-a) / b) + (-a) % b;
    assert c * b == a + (-a) % b;
    assert (c - 1) * b == c * b - b;
    forall n | n * b >= a ensures n >= c {
      if n <= c - 1 {
        MulMonotone(n, c - 1, b);
      }
    }
    if a > 0 && c <= 0 {
      MulMonotone(c, 0, b);
    }
  }

  lemma MulMonotone(x: int, y: int, b: int)
    requires x <= y && b >= 0
    ensures x * b <= y * b
  {
  }

  /** A match is a rule that covers the count, and no covering rule starts higher. */
  lemma {:induction false} MatchIsMostSpecific(rules: seq<RuleRange>, count: int)
    ensures MatchRange(rules, count).None? <==> forall rule :: rule in rules ==> !Matches(rule, count)
    ensures var chosen := MatchRange(rules, count);
      chosen.Some? ==>
        && chosen.value in rules && Matches(chosen.value, count)
        && forall rule :: rule in rules && Matches(rule, count) ==> rule.min <= chosen.value.min
  {
    if rules != [] {
      MatchIsMostSpecific(rules[1..], count);
      assert rules == [rules[0]] + rules[1..];
    }
  }

  /** The least multiple of three whose groups of at most `cap` hold `count` materials. */
  ghost predicate LeastTriples(groups: int, count: int, cap: int) {
    && groups % 3 == 0 && groups * cap >= count
    && forall m :: m % 3 == 0 && m * cap >= count ==> groups <= m
  }

  lemma TriplesAreLeast(count: int, cap: int)
    requires count > 0 && cap > 0
    ensures LeastTriples(CeilToThreeMultiple(Ceil(count, cap)), count, cap)
    ensures CeilToThreeMultiple(Ceil(count, cap)) > 0
  {
    CeilIsLeast(count, cap);
    var needed := Ceil(count, cap);
    CeilIsLeast(needed, 3);
    var groups := CeilToThreeMultiple(needed);
    MulMonotone(needed, groups, cap);
    forall m | m % 3 == 0 && m * cap >= count ensures groups <= m {
      assert m >= needed;
      assert (m / 3) * 3 == m;
    }
  }

  /** With no matching range, three projects share the least multiple of three groups that fit the cap. */
  lemma UnmatchedPlansAreLeast(count: int, rules: seq<RuleRange>)
    requires count > 0 && TestRules(rules) == [] && MatchRange(rules, count).None?
    ensures var plan := Calculate(count, rules).value;
      && LeastTriples(plan.finalGroupCount, count, Cap(rules))
      && plan.projectCount * plan.adLimitPerProject == plan.finalGroupCount > 0
  {
    TriplesAreLeast(count, Cap(rules));
  }

  /** A matched range is kept as configured when its groups fit, and otherwise overflows to the least multiple of
      three. */
  lemma MatchedPlansFit(count: int, rules: seq<RuleRange>)
    requires count > 0 && TestRules(rules) == [] && MatchRange(rules, count).Some?
    ensures var plan := Calculate(count, rules).value;
      var rule := MatchRange(rules, count).value;
      var cap := Max(rule.groupSizeCap, 1);
      && (if plan.baseGroups * cap >= count then plan.finalGroupCount == plan.baseGroups * (plan.copyCount + 1)
          else LeastTriples(plan.finalGroupCount, count, cap))
      && plan.finalGroupCount * cap >= count
      && plan.projectCount >= 1
  {
    hide Ceil, CeilToThreeMultiple, LeastTriples;
    var rule := MatchRange(rules, count).value;
    GroupsFit(count, Max(rule.baseGroupCount, 1), Max(rule.copyCount, 0), Max(rule.groupSizeCap, 1));
  }

  lemma GroupsFit(count: int, base: int, copies: int, cap: int)
    requires count > 0 && base > 0 && copies >= 0 && cap > 0
    ensures var groups := if Ceil(count, base) <= cap then base * (copies + 1)
        else CeilToThreeMultiple(Ceil(count, cap));
      && (if base * cap >= count then groups == base * (copies + 1) else LeastTriples(groups, count, cap))
      && groups * cap >= count
  {
    hide Ceil, CeilToThreeMultiple;
    FitsEitherWay(count, base, cap);
    TriplesAreLeast(count, cap);
    if base * cap >= count {
      assert base <= base * (copies + 1) by {
        MulMonotone(1, copies + 1, base);
      }
      MulMonotone(base, base * (copies + 1), cap);
    }
  }

  lemma FitsEitherWay(count: int, base: int, cap: int)
    requires base > 0 && cap > 0
    ensures Ceil(count, base) <= cap <==> base * cap >= count
  {
    CeilIsLeast(count, base);
    if Ceil(count, base) <= cap {
      MulMonotone(Ceil(count, base), cap, base);
    }
  }

  /**
   * A test plan uses the fewest groups of the chosen size, and the fewest projects its advertisement limit allows:
   * at most three while there are at most thirty groups.
   */
  lemma TestPlansAreTight(count: int, rules: seq<RuleRange>)
    requires count > 0 && TestRules(rules) != []
    ensures var plan := Calculate(count, rules).value;
      var size := PerGroup(count, TestRules(rules));
      && (plan.finalGroupCount - 1) * size < count <= plan.finalGroupCount * size
      && 1 <= plan.adLimitPerProject <= 10
      && (plan.projectCount - 1) * plan.adLimitPerProject < plan.finalGroupCount
      && plan.finalGroupCount <= plan.projectCount * plan.adLimitPerProject
      && (plan.finalGroupCount <= 30 ==> plan.projectCount <= 3)
      && (plan.finalGroupCount > 30 ==> plan.adLimitPerProject == 10)
  {
    var size := PerGroup(count, TestRules(rules));
    CeilIsLeast(count, size);
    var groups := Ceil(count, size);
    CeilIsLeast(groups, 3);
    var limit := Min(10, Ceil(groups, 3));
    CeilIsLeast(groups, limit);
    if groups <= 30 {
      assert 3 * limit >= groups;
    }
  }

  /** Every group of the plan has its place in some project. */
  predicate PlacesAllGroups(plan: MaterialPlan) {
    plan.projectCount * plan.adLimitPerProject >= plan.finalGroupCount
  }

  /**
   * The advertisement limit is rounded down to a third of the groups, so a matched normal plan can leave groups out.
   * It places them all exactly when the overflowing count has at least three projects, or the configured groups leave
   * no more over than the projects beyond three hold; for three projects, when the configured groups divide by three.
   */
  lemma PlacesAllGroupsExactly(count: int, rules: seq<RuleRange>)
    requires count > 0 && TestRules(rules) == [] && MatchRange(rules, count).Some?
    ensures var plan := Calculate(count, rules).value;
      var rule := MatchRange(rules, count).value;
      var base, cap, projects := Max(rule.baseGroupCount, 1), Max(rule.groupSizeCap, 1),
          Max(rule.targetProjectCount, 1);
      var configured := base * (Max(rule.copyCount, 0) + 1);
      && (PlacesAllGroups(plan) <==>
        if base * cap < count then projects >= 3 else (projects - 3) * (configured / 3) >= configured % 3)
      && (rule.targetProjectCount == 3 ==> (PlacesAllGroups(plan) <==> base * cap < count || configured % 3 == 0))
  {
    hide Ceil, CeilToThreeMultiple;
    var rule := MatchRange(rules, count).value;
    GroupsPlaced(
      count, Max(rule.baseGroupCount, 1), Max(rule.copyCount, 0), Max(rule.groupSizeCap, 1),
          Max(rule.targetProjectCount, 1));
  }

  lemma GroupsPlaced(count: int, base: int, copies: int, cap: int, projects: int)
    requires count > 0 && base > 0 && copies >= 0 && cap > 0
    ensures var groups := if Ceil(count, base) <= cap then base * (copies + 1)
        else CeilToThreeMultiple(Ceil(count, cap));
      var configured := base * (copies + 1);
      && (projects * (groups / 3) >= groups <==>
        if base * cap < count then projects >= 3 else (projects - 3) * (configured / 3) >= configured % 3)
      && (projects == 3 ==> (projects * (groups / 3) >= groups <==> base * cap < count || configured % 3 == 0))
  {
    hide Ceil, CeilToThreeMultiple;
    FitsEitherWay(count, base, cap);
    TriplesAreLeast(count, cap);
    RoundedDown(projects, if base * cap < count then CeilToThreeMultiple(Ceil(count, cap)) else base * (copies + 1));
  }

  lemma RoundedDown(projects: int, groups: int)
    ensures projects * (groups / 3) >= groups <==> (projects - 3) * (groups / 3) >= groups % 3
    ensures groups % 3 == 0 && groups > 0 ==> (projects * (groups / 3) >= groups <==> projects >= 3)
  {
    assert groups == 3 * (groups / 3) + groups % 3;
    assert (projects - 3) * (groups / 3) == projects * (groups / 3) - 3 * (groups / 3);
    if groups % 3 == 0 && groups > 0 {
      if projects >= 3 {
        MulMonotone(3, projects, groups / 3);
      } else {
        MulMonotone(projects, 2, groups / 3);
      }
    }
  }

  /** Three groups for one project that takes a single one. */
  lemma OneProjectLeavesGroupsOut()
    ensures var rule := RuleRange(1, None, "", 1, 2, 30, 1);
      Calculate(10, [rule]) == Ok(MaterialPlan(1, 2, 3, 1, 1)) && !PlacesAllGroups(MaterialPlan(1, 2, 3, 1, 1))
  {
  }

  /** One base group without copies: a limit of no advertisement at all. */
  lemma RoundingDownCanLeaveNothing()
    ensures var rule := RuleRange(1, None, "", 1, 0, 30, 3);
      Calculate(10, [rule]) == Ok(MaterialPlan(1, 0, 1, 0, 3))
  {
  }
}

/** Checking a draft's material ranges before they are published. */
module MaterialRanges {
  import opened Basics
  import opened Sorting
  import opened MaterialGroups

  datatype Bound = Open | UpTo(count: int) | NotACount

  /** One item as submitted; `min` is absent when it is missing or not an integer. */
  datatype Item = NotAnObject | Item(key: string, min: Option<int>, max: Bound, strategy: string)

  datatype Range = Range(key: string, min: int, max: Option<int>, strategy: string)

  datatype Problem = NotAnObjectProblem | Malformed(key: string) | Overlap(strategy: string, first: string,
      second: string)

  predicate WellFormed(item: Item) {
    item.Item? && item.min.Some? && !item.max.NotACount? && (item.max.UpTo? ==> item.min.value < item.max.count)
  }

  function RangeOf(item: Item): Range
    requires WellFormed(item)
  {
    Range(item.key, item.min.value, if item.max.UpTo? then Some(item.max.count) else None, item.strategy)
  }

  function Normalized(items: seq<Item>): seq<Range> {
    if items == [] then []
    else (if WellFormed(items[0]) then [RangeOf(items[0])] else []) + Normalized(items[1..])
  }

  function OfStrategy(ranges: seq<Range>, strategy: string): seq<Range> {
    if ranges == [] then []
    else (if ranges[0].strategy == strategy then [ranges[0]] else []) + OfStrategy(ranges[1..], strategy)
  }

  /** The strategies in order of first appearance. */
  function Strategies(ranges: seq<Range>): seq<string> {
    if ranges == [] then []
    else
      var earlier := Strategies(ranges[..|ranges| - 1]);
      var strategy := ranges[|ranges| - 1].strategy;
      if strategy in earlier then earlier else earlier + [strategy]
  }

  function ByMin(ranges: seq<Range>): seq<Range> {
    Sorted(ranges, (a: Range, b: Range) => a.min < b.min)
  }

  predicate Touches(previous: Range, current: Range) {
    previous.max.None? || current.min <= previous.max.value
  }

  /** The overlaps between neighbours. */
  function Adjacent(ordered: seq<Range>, strategy: string): seq<Problem> {
    if |ordered| < 2 then []
    else
      var rest := Adjacent(ordered[1..], strategy);
      if Touches(ordered[0], ordered[1]) then [Overlap(strategy, ordered[0].key, ordered[1].key)] + rest else rest
  }

  function MalformedItems(items: seq<Item>): seq<Problem> {
    if items == [] then []
    else
      var rest := MalformedItems(items[1..]);
      if WellFormed(items[0]) then rest
      else [if items[0].NotAnObject? then NotAnObjectProblem else Malformed(items[0].key)] + rest
  }

  function Overlaps(ranges: seq<Range>, strategies: seq<string>): seq<Problem> {
    if strategies == [] then []
    else Adjacent(ByMin(OfStrategy(ranges, strategies[0])), strategies[0]) + Overlaps(ranges, strategies[1..])
  }

  function Problems(items: seq<Item>): seq<Problem> {
    MalformedItems(items) + Overlaps(Normalized(items), Strategies(Normalized(items)))
  }

  // ---- the service ----

  method ValidateMaterialItems(items: seq<Item>) returns (errors: seq<Problem>)
    ensures errors == Problems(items)
  {
    hide Adjacent, OfStrategy, Strategies;
    errors := [];
    var normalized: seq<Range> := [];
    for i := 0 to |items|
      invariant errors + MalformedItems(items[i..]) == MalformedItems(items)
      invariant normalized + Normalized(items[i..]) == Normalized(items)
    {
      var item := items[i];
      assert items[i..][1..] == items[i + 1..];
      if item.NotAnObject? {
        errors := errors + [NotAnObjectProblem];
      } else if item.min.None? || item.max.NotACount? || (item.max.UpTo? && item.min.value >= item.max.count) {
        errors := errors + [Malformed(item.key)];
      } else {
        normalized := normalized + [RangeOf(item)];
      }
    }
    var names, groups := GroupByStrategy(normalized);
    assert errors == MalformedItems(items) && normalized == Normalized(items) && names[0..] == names;
    for n := 0 to |names|
      invariant errors + Overlaps(normalized, names[n..]) == Problems(items)
    {
      assert names[n..][1..] == names[n + 1..];
      var ordered := Sorted(groups[names[n]], (a: Range, b: Range) => a.min < b.min);
      assert ordered == ByMin(OfStrategy(normalized, names[n]));
      var overlaps := NeighbourOverlaps(ordered, names[n]);
      errors := errors + overlaps;
    }
  }

  /** Ranges by strategy; `names` keeps the order in which the strategies first appear. */
  method GroupByStrategy(ranges: seq<Range>) returns (names: seq<string>, groups: map<string, seq<Range>>)
    ensures names == Strategies(ranges)
    ensures forall name :: name in names <==> name in groups
    ensures forall name :: name in groups ==> groups[name] == OfStrategy(ranges, name)
  {
    hide OfStrategy;
    names, groups := [], map[];
    forall name ensures OfStrategy([], name) == [] {
      NothingOfStrategy(name);
    }
    for i := 0 to |ranges|
      invariant names == Strategies(ranges[..i])
      invariant forall name :: name in names <==> name in groups
      invariant forall name :: OfStrategy(ranges[..i], name) == if name in groups then groups[name] else []
    {
      var r := ranges[i];
      assert ranges[..i + 1] == ranges[..i] + [r];
      assert ranges[..i + 1][..i] == ranges[..i];
      forall name ensures OfStrategy(ranges[..i + 1], name) == OfStrategy(ranges[..i], name) + if r.strategy == name
          then [r] else [] {
        OfStrategyAppend(ranges[..i], r, name);
      }
      if r.strategy !in groups {
        names := names + [r.strategy];
        groups := groups[r.strategy := [r]];
      } else {
        groups := groups[r.strategy := groups[r.strategy] + [r]];
      }
    }
    assert ranges[..|ranges|] == ranges;
  }

  lemma NothingOfStrategy(name: string)
    ensures OfStrategy([], name) == []
  {
  }

  lemma {:induction false} OfStrategyAppend(ranges: seq<Range>, r: Range, name: string)
    ensures OfStrategy(ranges + [r], name) == OfStrategy(ranges, name) + if r.strategy == name then [r] else []
  {
    if ranges != [] {
      OfStrategyAppend(ranges[1..], r, name);
      assert (ranges + [r])[1..] == ranges[1..] + [r];
    }
  }

  method NeighbourOverlaps(ordered: seq<Range>, strategy: string) returns (errors: seq<Problem>)
    ensures errors == Adjacent(ordered, strategy)
  {
    errors := [];
    assert ordered[0..] == ordered;
    var i := 1;
    while i < |ordered|
      invariant 1 <= i
      invariant i <= |ordered| ==> errors + Adjacent(ordered[i - 1..], strategy) == Adjacent(ordered, strategy)
      invariant i > |ordered| ==> ordered == [] && errors == []
    {
      assert ordered[i - 1..][1..] == ordered[i..];
      if ordered[i - 1].max.None? || ordered[i].min <= ordered[i - 1].max.value {
        errors := errors + [Overlap(strategy, ordered[i - 1].key, ordered[i].key)];
      }
      i := i + 1;
    }
    assert ordered != [] ==> |ordered[i - 1..]| == 1 && Adjacent(ordered[i - 1..], strategy) == [];
    assert errors + [] == errors;
  }

  // ---- what the check decides ----

  /** Both ranges cover some material count. */
  ghost predicate Overlapping(a: Range, b: Range) {
    exists count :: Covers(a.min, a.max, count) && Covers(b.min, b.max, count)
  }

  predicate NonEmpty(r: Range) {
    r.max.Some? ==> r.min < r.max.value
  }

  ghost predicate Apart(r: Range, ranges: seq<Range>) {
    forall other :: other in ranges ==> !Overlapping(r, other)
  }

  ghost predicate PairwiseApart(ranges: seq<Range>) {
    forall i, j :: 0 <= i < j < |ranges| ==> !Overlapping(ranges[i], ranges[j])
  }

  lemma FirstApart(r: Range, ranges: seq<Range>)
    ensures PairwiseApart([r] + ranges) <==> Apart(r, ranges) && PairwiseApart(ranges)
  {
    var all := [r] + ranges;
    if PairwiseApart(all) {
      forall other | other in ranges ensures !Overlapping(r, other) {
        var k :| 0 <= k < |ranges| && ranges[k] == other;
        assert !Overlapping(all[0], all[k + 1]);
      }
      forall i, j | 0 <= i < j < |ranges| ensures !Overlapping(ranges[i], ranges[j]) {
        assert !Overlapping(all[i + 1], all[j + 1]);
      }
    }
  }

  lemma {:induction false} InsertApart(r: Range, ranges: seq<Range>, before: (Range, Range) -> bool)
    ensures PairwiseApart(Insert(r, ranges, before)) <==> Apart(r, ranges) && PairwiseApart(ranges)
  {
    hide Overlapping;
    if ranges == [] || !before(ranges[0], r) {
      FirstApart(r, ranges);
    } else {
      InsertApart(r, ranges[1..], before);
      InsertMembers(r, ranges[1..], before);
      FirstApart(ranges[0], Insert(r, ranges[1..], before));
      FirstApart(ranges[0], ranges[1..]);
      assert ranges == [ranges[0]] + ranges[1..];
      OverlappingIsSymmetric(ranges[0], r);
    }
  }

  lemma OverlappingIsSymmetric(a: Range, b: Range)
    ensures Overlapping(a, b) == Overlapping(b, a)
  {
  }

  lemma {:induction false} SortingKeepsApart(ranges: seq<Range>, before: (Range, Range) -> bool)
    ensures PairwiseApart(Sorted(ranges, before)) <==> PairwiseApart(ranges)
  {
    hide Overlapping;
    if ranges != [] {
      SortingKeepsApart(ranges[1..], before);
      SortedMembers(ranges[1..], before);
      InsertApart(ranges[0], Sorted(ranges[1..], before), before);
      FirstApart(ranges[0], ranges[1..]);
      assert ranges == [ranges[0]] + ranges[1..];
    }
  }

  /** Among ranges ordered by minimum, looking at neighbours is enough. */
  lemma {:induction false} NeighboursDecide(ordered: seq<Range>, strategy: string)
    requires forall r :: r in ordered ==> NonEmpty(r)
    requires forall i, j :: 0 <= i < j < |ordered| ==> ordered[i].min <= ordered[j].min
    ensures Adjacent(ordered, strategy) == [] <==> PairwiseApart(ordered)
  {
    if |ordered| >= 2 {
      var rest := ordered[1..];
      NeighboursDecide(rest, strategy);
      FirstApart(ordered[0], rest);
      assert ordered == [ordered[0]] + rest;
      var first, second := ordered[0], ordered[1];
      if Touches(first, second) {
        assert second in ordered && NonEmpty(second);
        assert Covers(first.min, first.max, second.min) && Covers(second.min, second.max, second.min);
        assert second in rest;
      } else {
        forall other | other in rest ensures !Overlapping(first, other) {
          assert second.min <= other.min;
        }
      }
    }
  }

  predicate AllWellFormed(items: seq<Item>) {
    forall i :: 0 <= i < |items| ==> WellFormed(items[i])
  }

  /** No two ranges of one strategy cover a common count. */
  ghost predicate DisjointByStrategy(ranges: seq<Range>) {
    forall i, j :: 0 <= i < j < |ranges| && ranges[i].strategy == ranges[j].strategy
        ==> !Overlapping(ranges[i], ranges[j])
  }

  lemma {:induction false} OfStrategyMembers(ranges: seq<Range>, strategy: string)
    ensures forall r :: r in OfStrategy(ranges, strategy) <==> r in ranges && r.strategy == strategy
  {
    if ranges != [] {
      OfStrategyMembers(ranges[1..], strategy);
      assert ranges == [ranges[0]] + ranges[1..];
    }
  }

  ghost predicate GroupApart(ranges: seq<Range>, strategy: string) {
    PairwiseApart(OfStrategy(ranges, strategy))
  }

  /** No range of `ranges` of the same strategy overlaps `r`. */
  ghost predicate Clear(r: Range, ranges: seq<Range>) {
    forall other :: other in ranges && other.strategy == r.strategy ==> !Overlapping(r, other)
  }

  lemma GroupApartOfCons(r: Range, ranges: seq<Range>, strategy: string)
    ensures GroupApart([r] + ranges, strategy) <==> GroupApart(ranges, strategy) && (strategy == r.strategy ==>
      Clear(r, ranges))
  {
    hide Overlapping;
    var group := OfStrategy(ranges, strategy);
    OfStrategyMembers(ranges, strategy);
    FirstApart(r, group);
    assert ([r] + ranges)[1..] == ranges;
    assert OfStrategy([r] + ranges, strategy) == if strategy == r.strategy then [r] + group else group;
  }

  lemma {:induction false} GroupsAreApart(ranges: seq<Range>)
    ensures DisjointByStrategy(ranges) <==> forall strategy :: GroupApart(ranges, strategy)
  {
    if ranges == [] {
      assert forall strategy :: OfStrategy(ranges, strategy) == [];
    } else {
      hide Overlapping, GroupApart, DisjointByStrategy, Clear;
      var first, rest := ranges[0], ranges[1..];
      assert ranges == [first] + rest;
      GroupsAreApart(rest);
      FirstDisjoint(first, rest);
      forall strategy {:trigger GroupApart(ranges, strategy)} {:trigger GroupApart(rest, strategy)}
        ensures GroupApart(ranges, strategy) <==> GroupApart(rest, strategy) && (strategy == first.strategy ==>
          Clear(first, rest))
      {
        GroupApartOfCons(first, rest, strategy);
      }
      assert GroupApart(ranges, first.strategy) ==> Clear(first, rest);
    }
  }

  lemma FirstDisjoint(r: Range, ranges: seq<Range>)
    ensures DisjointByStrategy([r] + ranges) <==> Clear(r, ranges) && DisjointByStrategy(ranges)
  {
    hide Overlapping;
    var all := [r] + ranges;
    if DisjointByStrategy(all) {
      forall other | other in ranges && other.strategy == r.strategy ensures !Overlapping(r, other) {
        var k :| 0 <= k < |ranges| && ranges[k] == other;
        assert all[0] == r && all[k + 1] == other;
      }
      forall i, j | 0 <= i < j < |ranges| && ranges[i].strategy == ranges[j].strategy
          ensures !Overlapping(ranges[i], ranges[j]) {
        assert all[i + 1] == ranges[i] && all[j + 1] == ranges[j];
      }
    }
  }

  predicate Quiet(ranges: seq<Range>, strategy: string) {
    Adjacent(ByMin(OfStrategy(ranges, strategy)), strategy) == []
  }

  lemma {:induction false} OverlapsNone(ranges: seq<Range>, strategies: seq<string>)
    ensures Overlaps(ranges, strategies) == [] <==> forall strategy :: strategy in strategies ==>
      Quiet(ranges, strategy)
  {
    if strategies != [] {
      OverlapsNone(ranges, strategies[1..]);
      assert strategies == [strategies[0]] + strategies[1..];
      var first, rest := Adjacent(ByMin(OfStrategy(ranges, strategies[0])), strategies[0]),
          Overlaps(ranges, strategies[1..]);
      assert |first + rest| == |first| + |rest|;
      assert Quiet(ranges, strategies[0]) <==> first == [];
    }
  }

  lemma {:induction false} StrategiesAreAll(ranges: seq<Range>)
    ensures forall r :: r in ranges ==> r.strategy in Strategies(ranges)
  {
    if ranges != [] {
      StrategiesAreAll(ranges[..|ranges| - 1]);
      assert ranges == ranges[..|ranges| - 1] + [ranges[|ranges| - 1]];
    }
  }

  lemma StrategyDecides(ranges: seq<Range>, strategy: string)
    requires forall r :: r in ranges ==> NonEmpty(r)
    ensures Quiet(ranges, strategy) <==> GroupApart(ranges, strategy)
  {
    hide Overlapping;
    var group := OfStrategy(ranges, strategy);
    var before := (a: Range, b: Range) => a.min < b.min;
    OfStrategyMembers(ranges, strategy);
    SortedMembers(group, before);
    SortedInOrder(group, before);
    SortingKeepsApart(group, before);
    NeighboursDecide(ByMin(group), strategy);
  }

  /** The overlap part reports nothing exactly when the ranges of each strategy are pairwise disjoint. */
  lemma OverlapsDecide(ranges: seq<Range>)
    requires forall r :: r in ranges ==> NonEmpty(r)
    ensures Overlaps(ranges, Strategies(ranges)) == [] <==> DisjointByStrategy(ranges)
  {
    hide Overlapping, GroupApart, Quiet, DisjointByStrategy, Overlaps;
    GroupsAreApart(ranges);
    OverlapsNone(ranges, Strategies(ranges));
    forall strategy {:trigger GroupApart(ranges, strategy)} {:trigger Quiet(ranges, strategy)}
      ensures Quiet(ranges, strategy) <==> GroupApart(ranges, strategy)
      ensures strategy !in Strategies(ranges) ==> GroupApart(ranges, strategy)
    {
      StrategyDecides(ranges, strategy);
      UnusedStrategiesAreApart(ranges, strategy);
    }
  }

  lemma UnusedStrategiesAreApart(ranges: seq<Range>, strategy: string)
    ensures strategy !in Strategies(ranges) ==> GroupApart(ranges, strategy)
  {
    StrategiesAreAll(ranges);
    OfStrategyMembers(ranges, strategy);
    var group := OfStrategy(ranges, strategy);
    assert |group| > 0 ==> group[0] in group;
  }

  lemma {:induction false} WellFormedItemsNormalize(items: seq<Item>)
    ensures MalformedItems(items) == [] <==> AllWellFormed(items)
    ensures AllWellFormed(items) ==>
      |Normalized(items)| == |items| && forall i :: 0 <= i < |items| ==> Normalized(items)[i] == RangeOf(items[i])
    ensures forall r :: r in Normalized(items) ==> NonEmpty(r)
  {
    if items != [] {
      WellFormedItemsNormalize(items[1..]);
      assert items == [items[0]] + items[1..];
    }
  }

  /** A draft passes exactly when every item is a well formed range and the ranges of each strategy are disjoint. */
  lemma CheckIsExact(items: seq<Item>)
    ensures Problems(items) == [] <==>
      && AllWellFormed(items)
      && (forall i, j :: 0 <= i < j < |items| && items[i].strategy == items[j].strategy ==>
            !Overlapping(RangeOf(items[i]), RangeOf(items[j])))
  {
    hide Overlapping;
    WellFormedItemsNormalize(items);
    OverlapsDecide(Normalized(items));
  }
}
