/** What a material plan says, field by field, in terms of the count and the rule that applies. */
module MaterialAnswers {
  import opened Basics
  import opened MaterialGroups

  predicate IsForTests(rule: RuleRange) {
    |rule.strategy| >= 5 && rule.strategy[..5] == "TEST_"
  }

  /** Some rule is for test accounts: then only those rules count. */
  ghost predicate ForTests(rules: seq<RuleRange>) {
    exists i :: 0 <= i < |rules| && IsForTests(rules[i])
  }

  lemma OneTestRule(rule: RuleRange)
    ensures TestRules([rule]) == if IsForTests(rule) then [rule] else []
    ensures IsTest(rule) <==> IsForTests(rule)
  {
    assert [rule][1..] == [];
  }

  /** The rules for test accounts, in order. */
  lemma {:induction false} TestRulesAppend(x: seq<RuleRange>, y: seq<RuleRange>)
    ensures TestRules(x + y) == TestRules(x) + TestRules(y)
  {
    hide IsTest;
    if x == [] {
      assert x + y == y;
    } else {
      assert (x + y)[0] == x[0] && (x + y)[1..] == x[1..] + y;
      TestRulesAppend(x[1..], y);
    }
  }

  lemma {:induction false} SomeTestRule(rules: seq<RuleRange>)
    ensures TestRules(rules) != [] <==> ForTests(rules)
  {
    hide IsTest, IsForTests;
    if rules != [] {
      var rest := rules[1..];
      OneTestRule(rules[0]);
      SomeTestRule(rest);
      assert forall i :: 0 < i < |rules| ==> rules[i] == rest[i - 1];
      assert forall i :: 0 <= i < |rest| ==> rest[i] == rules[i + 1];
    }
  }

  function AtLeast(value: int, least: int): int {
    if value < least then least else value
  }

  /** Groups of `size` materials, as many as are needed, in at most ten advertisements a project. */
  predicate TestPlan(plan: MaterialPlan, count: int, size: int) {
    && (plan.finalGroupCount - 1) * size < count <= plan.finalGroupCount * size
    && plan.baseGroups == plan.finalGroupCount && plan.copyCount == 0
    && 1 <= plan.adLimitPerProject <= 10
    && (plan.adLimitPerProject < 10 ==>
      3 * (plan.adLimitPerProject - 1) < plan.finalGroupCount <= 3 * plan.adLimitPerProject)
    && (plan.adLimitPerProject == 10 ==> plan.finalGroupCount > 27)
    && (plan.projectCount - 1) * plan.adLimitPerProject < plan.finalGroupCount
    && plan.finalGroupCount <= plan.projectCount * plan.adLimitPerProject
  }

  /**
   * Every answer: a refusal for a negative count, nothing for none, test groups of two or three or of the rule's size,
   * and otherwise the groups of the rule, or of the cap, with a third of them in each of the projects asked for.
   */
  lemma EveryAnswer(count: int, rules: seq<RuleRange>)
    ensures count < 0 ==> Calculate(count, rules) == Err(Invalid)
    ensures count == 0 ==> Calculate(count, rules) == Ok(MaterialPlan(0, 0, 0, 0, 0))
    ensures count > 0 ==> Calculate(count, rules).Ok?
    ensures count > 0 && ForTests(rules) ==>
      TestPlan(Calculate(count, rules).value, count,
        match MatchRange(TestRules(rules), count)
        case None => if count < 20 then 2 else 3
        case Some(rule) => AtLeast(rule.baseGroupCount, 1))
    ensures count > 0 && !ForTests(rules) ==>
      var plan := Calculate(count, rules).value;
      && plan.adLimitPerProject == plan.finalGroupCount / 3
      && match MatchRange(rules, count)
         case None => plan.baseGroups == plan.finalGroupCount && plan.copyCount == 0 && plan.projectCount == 3
         case Some(rule) =>
           && plan.baseGroups == AtLeast(rule.baseGroupCount, 1) && plan.copyCount == AtLeast(rule.copyCount, 0)
           && plan.projectCount == AtLeast(rule.targetProjectCount, 1)
  {
    hide MatchRange, Ceil, CeilToThreeMultiple, TestRules, ForTests;
    SomeTestRule(rules);
    if count > 0 && TestRules(rules) != [] {
      TestAnswers(count, TestRules(rules));
    }
  }

  lemma TestAnswers(count: int, rules: seq<RuleRange>)
    requires count > 0
    ensures TestPlan(CalculateTest(count, rules), count,
      match MatchRange(rules, count)
      case None => if count < 20 then 2 else 3
      case Some(rule) => AtLeast(rule.baseGroupCount, 1))
  {
    hide MatchRange, Ceil;
    var size := PerGroup(count, rules);
    CeilIsLeast(count, size);
    var groups := Ceil(count, size);
    CeilIsLeast(groups, 3);
    CeilIsLeast(groups, Min(10, Ceil(groups, 3)));
  }

  /** The rule at `k` covers the count, and starts higher than those before it and no lower than those after it. */
  predicate IsChosen(rules: seq<RuleRange>, count: int, k: nat) {
    && k < |rules| && rules[k].min <= count && (rules[k].max.None? || count <= rules[k].max.value)
    && forall j :: 0 <= j < |rules| && rules[j].min <= count && (rules[j].max.None? || count <= rules[j].max.value) ==>
      if j < k then rules[j].min < rules[k].min else rules[j].min <= rules[k].min
  }

  /** Of the rules that cover a count the one with the highest minimum is taken, and of several the first. */
  lemma {:induction false} FirstOfTheHighest(rules: seq<RuleRange>, count: int)
    ensures match MatchRange(rules, count)
      case None => forall k: nat :: !IsChosen(rules, count, k)
      case Some(rule) => exists k: nat :: IsChosen(rules, count, k) && rules[k] == rule
  {
    MatchIsMostSpecific(rules, count);
    if rules != [] {
      var rest := rules[1..];
      FirstOfTheHighest(rest, count);
      assert forall j :: 0 < j < |rules| ==> rules[j] == rest[j - 1];
      var later := MatchRange(rest, count);
      if later.Some? && (!Matches(rules[0], count) || later.value.min > rules[0].min) {
        var k: nat :| IsChosen(rest, count, k) && rest[k] == later.value;
        assert IsChosen(rules, count, k + 1);
      } else if Matches(rules[0], count) {
        MatchIsMostSpecific(rest, count);
        assert forall j :: 0 < j < |rules| ==> rules[j] in rest;
        assert IsChosen(rules, count, 0);
      } else {
        forall k: nat ensures !IsChosen(rules, count, k) {
          assert k < |rules| ==> rules[k] in rules;
        }
      }
    }
  }
}
