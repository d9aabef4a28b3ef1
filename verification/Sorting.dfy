/** Sequences without repetition, Python slices, and the stable sort by a key order. */
module Sorting {
  import opened Basics

  function Members<T>(s: seq<T>): set<T> {
    set x | x in s
  }

  ghost predicate Distinct<T>(s: seq<T>) {
    forall i, j :: 0 <= i < j < |s| ==> s[i] != s[j]
  }

  lemma MembersAppend<T>(s: seq<T>, x: T)
    ensures Members(s + [x]) == Members(s) + {x}
  {
    forall y ensures y in Members(s + [x]) <==> y in Members(s) + {x} {
      if y in s + [x] {
        assert y in s || y == x;
      }
    }
  }

  /** The Python slice `s[:limit]`. */
  function Prefix<T>(s: seq<T>, limit: int): seq<T> {
    if limit < 0 then s[..(if |s| + limit > 0 then |s| + limit else 0)]
    else if limit <= |s| then s[..limit]
    else s
  }

  function Insert<T>(x: T, s: seq<T>, before: (T, T) -> bool): seq<T> {
    if s == [] then [x]
    else if before(s[0], x) then [s[0]] + Insert(x, s[1..], before)
    else [x] + s
  }

  /** The stable sort: equal keys keep their order. */
  function Sorted<T>(s: seq<T>, before: (T, T) -> bool): seq<T> {
    if s == [] then [] else Insert(s[0], Sorted(s[1..], before), before)
  }

  ghost predicate InOrder<T>(s: seq<T>, before: (T, T) -> bool) {
    forall i, j :: 0 <= i < j < |s| ==> !before(s[j], s[i])
  }

  /** `before` compares keys: asymmetric, and ties are transitive. */
  ghost predicate KeyOrder<T(!new)>(s: set<T>, before: (T, T) -> bool) {
    && (forall x, y :: x in s && y in s && before(x, y) ==> !before(y, x))
    && (forall x, y, z :: x in s && y in s && z in s && !before(y, x) && !before(z, y) ==> !before(z, x))
  }

  lemma StrictTotalIsKeyOrder<T(!new)>(s: set<T>, before: (T, T) -> bool)
    requires StrictTotalOrder(s, before)
    ensures KeyOrder(s, before)
  {
    forall x, y, z | x in s && y in s && z in s && !before(y, x) && !before(z, y)
      ensures !before(z, x)
    {
      if x != y && y != z {
        assert before(x, y) && before(y, z);
        assert before(x, z);
      }
    }
  }

  lemma {:induction false} InsertMembers<T>(x: T, s: seq<T>, before: (T, T) -> bool)
    ensures |Insert(x, s, before)| == |s| + 1
    ensures forall y :: y in Insert(x, s, before) <==> y == x || y in s
    ensures Distinct(s) && x !in s ==> Distinct(Insert(x, s, before))
  {
    if s != [] && before(s[0], x) {
      InsertMembers(x, s[1..], before);
      assert s == [s[0]] + s[1..];
      assert Distinct(s) && x !in s ==> s[0] !in Insert(x, s[1..], before);
    }
  }

  lemma {:induction false} SortedMembers<T>(s: seq<T>, before: (T, T) -> bool)
    ensures |Sorted(s, before)| == |s|
    ensures forall y :: y in Sorted(s, before) <==> y in s
    ensures Distinct(s) ==> Distinct(Sorted(s, before))
  {
    if s != [] {
      SortedMembers(s[1..], before);
      InsertMembers(s[0], Sorted(s[1..], before), before);
      assert s == [s[0]] + s[1..];
    }
  }

  lemma {:induction false} InsertKeepsOrder<T(!new)>(x: T, s: seq<T>, before: (T, T) -> bool)
    requires InOrder(s, before) && KeyOrder(Members(s) + {x}, before)
    ensures InOrder(Insert(x, s, before), before)
  {
    if s != [] {
      assert s == [s[0]] + s[1..];
      if before(s[0], x) {
        assert Members(s[1..]) <= Members(s);
        InsertKeepsOrder(x, s[1..], before);
        InsertMembers(x, s[1..], before);
        var r := Insert(x, s[1..], before);
        forall j | 0 <= j < |r| ensures !before(r[j], s[0]) {
          assert r[j] in r;
          assert r[j] == x || r[j] in s[1..];
          assert s[0] in Members(s);
        }
      } else {
        forall j | 0 <= j < |s| ensures !before(s[j], x) {
          assert s[j] in Members(s) && s[0] in Members(s);
          assert j == 0 || !before(s[j], s[0]);
        }
      }
    }
  }

  lemma {:induction false} SortedInOrder<T(!new)>(s: seq<T>, before: (T, T) -> bool)
    requires KeyOrder(Members(s), before)
    ensures InOrder(Sorted(s, before), before)
  {
    if s != [] {
      assert Members(s[1..]) <= Members(s);
      SortedInOrder(s[1..], before);
      SortedMembers(s[1..], before);
      assert Members(Sorted(s[1..], before)) + {s[0]} == Members(s);
      InsertKeepsOrder(s[0], Sorted(s[1..], before), before);
    }
  }
}
