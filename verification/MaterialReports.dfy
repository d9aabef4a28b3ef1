/** What the check of a draft's ranges reports, problem by problem. */
module MaterialReports {
  import opened Basics
  import opened Sorting
  import opened MaterialRanges

  /** No integer minimum, a maximum that is no integer, or one that is not above the minimum. */
  predicate Faulty(item: Item) {
    item.Item? &&
    (|| item.min.None? || item.max.NotACount?
     || (item.max.UpTo? && item.max.count <= item.min.value))
  }

  predicate TouchAt(ordered: seq<Range>, i: nat) {
    i + 1 < |ordered| && (ordered[i].max.None? || ordered[i + 1].min <= ordered[i].max.value)
  }

  lemma {:induction false} NeighboursAreNamed(ordered: seq<Range>, strategy: string, p: Problem)
    ensures p in Adjacent(ordered, strategy) <==>
      exists i: nat :: TouchAt(ordered, i) && p == Overlap(strategy, ordered[i].key, ordered[i + 1].key)
  {
    if |ordered| >= 2 {
      NeighboursAreNamed(ordered[1..], strategy, p);
      if i: nat :| TouchAt(ordered, i) && p == Overlap(strategy, ordered[i].key, ordered[i + 1].key) {
        if i > 0 {
          assert TouchAt(ordered[1..], i - 1);
        }
      }
      if i: nat :| TouchAt(ordered[1..], i) && p == Overlap(strategy, ordered[1..][i].key, ordered[1..][i + 1].key) {
        assert TouchAt(ordered, i + 1);
      }
      assert TouchAt(ordered, 0) <==> Touches(ordered[0], ordered[1]);
    }
  }

  lemma {:induction false} InsertCounts(x: Range, ranges: seq<Range>, before: (Range, Range) -> bool)
    ensures multiset(Insert(x, ranges, before)) == multiset(ranges) + multiset{x}
  {
    if ranges != [] {
      assert ranges == [ranges[0]] + ranges[1..];
      InsertCounts(x, ranges[1..], before);
    }
  }

  lemma {:induction false} SortingCounts(ranges: seq<Range>, before: (Range, Range) -> bool)
    ensures multiset(Sorted(ranges, before)) == multiset(ranges)
  {
    if ranges != [] {
      assert ranges == [ranges[0]] + ranges[1..];
      SortingCounts(ranges[1..], before);
      InsertCounts(ranges[0], Sorted(ranges[1..], before), before);
    }
  }

  lemma {:induction false} StrategyCounts(ranges: seq<Range>, strategy: string, r: Range)
    ensures multiset(OfStrategy(ranges, strategy))[r] == if r.strategy == strategy then multiset(ranges)[r] else 0
  {
    if ranges != [] {
      assert ranges == [ranges[0]] + ranges[1..];
      StrategyCounts(ranges[1..], strategy, r);
    }
  }

  /** Two of the ranges, both of the strategy, the second beginning where the first still goes on. */
  predicate Clash(ranges: seq<Range>, strategy: string, r: Range, q: Range) {
    && r in ranges && q in ranges && r.strategy == q.strategy == strategy
    && r.min <= q.min && (r.max.None? || q.min <= r.max.value)
    && (r == q ==> multiset(ranges)[r] > 1)
  }

  lemma NeighboursClash(ranges: seq<Range>, strategy: string, i: nat)
    requires var ordered := ByMin(OfStrategy(ranges, strategy));
      TouchAt(ordered, i) && ordered[i].min <= ordered[i + 1].min
    ensures var ordered := ByMin(OfStrategy(ranges, strategy)); Clash(ranges, strategy, ordered[i], ordered[i + 1])
  {
    hide OfStrategy, Sorted;
    var group := OfStrategy(ranges, strategy);
    var ordered := ByMin(group);
    SortingCounts(group, (a: Range, b: Range) => a.min < b.min);
    var r, q := ordered[i], ordered[i + 1];
    assert ordered == ordered[..i] + [r, q] + ordered[i + 2..];
    assert multiset(ordered)[r] > 0 && multiset(ordered)[q] > 0 && (r == q ==> multiset(ordered)[r] > 1);
    StrategyCounts(ranges, strategy, r);
    StrategyCounts(ranges, strategy, q);
  }

  lemma OrderedByMin(ranges: seq<Range>)
    ensures forall i, j :: 0 <= i < j < |ByMin(ranges)| ==> ByMin(ranges)[i].min <= ByMin(ranges)[j].min
  {
    hide Sorted;
    SortedInOrder(ranges, (a: Range, b: Range) => a.min < b.min);
  }

  lemma {:induction false} ReportedClash(ranges: seq<Range>, strategies: seq<string>, p: Problem)
    requires p in Overlaps(ranges, strategies)
    ensures p.Overlap? && exists r, q :: Clash(ranges, p.strategy, r, q) && r.key == p.first && q.key == p.second
  {
    hide OfStrategy, ByMin, Clash;
    var ordered := ByMin(OfStrategy(ranges, strategies[0]));
    if p in Adjacent(ordered, strategies[0]) {
      NeighboursAreNamed(ordered, strategies[0], p);
      var i: nat :| TouchAt(ordered, i) && p == Overlap(strategies[0], ordered[i].key, ordered[i + 1].key);
      OrderedByMin(OfStrategy(ranges, strategies[0]));
      NeighboursClash(ranges, strategies[0], i);
    } else {
      ReportedClash(ranges, strategies[1..], p);
    }
  }

  lemma {:induction false} FaultsAreReported(items: seq<Item>, p: Problem)
    ensures p in MalformedItems(items) <==>
      || (p == NotAnObjectProblem && NotAnObject in items)
      || (p.Malformed? && exists i :: 0 <= i < |items| && Faulty(items[i]) && items[i].key == p.key)
  {
    if items != [] {
      FaultsAreReported(items[1..], p);
      assert items == [items[0]] + items[1..];
      assert forall i :: 0 < i < |items| ==> items[i] == items[1..][i - 1];
      assert WellFormed(items[0]) <==> items[0].Item? && !Faulty(items[0]);
    }
  }

  /**
   * Reported are exactly the items that are no objects and the faulty ones, by key, and of overlaps only true ones: by
   * strategy and keys, a range that begins where another of its strategy still goes on.
   */
  lemma ReportsAreTrue(items: seq<Item>, p: Problem)
    ensures p == NotAnObjectProblem ==> (p in Problems(items) <==> NotAnObject in items)
    ensures p.Malformed? ==> (p in Problems(items) <==>
      exists i :: 0 <= i < |items| && Faulty(items[i]) && items[i].key == p.key)
    ensures p.Overlap? && p in Problems(items) ==>
      exists r, q :: Clash(Normalized(items), p.strategy, r, q) && r.key == p.first && q.key == p.second
  {
    hide MalformedItems, Overlaps, Clash;
    FaultsAreReported(items, p);
    if p in Overlaps(Normalized(items), Strategies(Normalized(items))) {
      ReportedClash(Normalized(items), Strategies(Normalized(items)), p);
    }
  }
}
