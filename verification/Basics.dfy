/** Shared vocabulary: optional values, the error family of the services, text order and selection from a set. */
module Basics {

  datatype Option<+T> = None | Some(value: T)

  /** The exceptions the services raise, by kind. */
  datatype Error = NotFound | Conflict | Invalid | External | Integrity

  datatype Result<+T> = Ok(value: T) | Err(error: Error)

  /** Instants and durations, in seconds. */
  type Time = real

  /** Code point order on text: the order of SQLite's BINARY collation and of Python's `<` on str. */
  predicate TextLess(a: string, b: string) {
    if b == [] then false
    else if a == [] then true
    else a[0] < b[0] || (a[0] == b[0] && TextLess(a[1..], b[1..]))
  }

  lemma {:induction false} TextLessIsTotal(a: string, b: string)
    ensures a == b || TextLess(a, b) || TextLess(b, a)
    ensures !(TextLess(a, b) && TextLess(b, a))
    ensures a == b ==> !TextLess(a, b)
  {
    if a != [] && b != [] && a[0] == b[0] {
      TextLessIsTotal(a[1..], b[1..]);
      assert a == [a[0]] + a[1..] && b == [b[0]] + b[1..];
    }
  }

  lemma {:induction false} TextLessIsTransitive(a: string, b: string, c: string)
    requires TextLess(a, b) && TextLess(b, c)
    ensures TextLess(a, c)
  {
    if a != [] && a[0] == b[0] && b[0] == c[0] {
      TextLessIsTransitive(a[1..], b[1..], c[1..]);
    }
  }

  /** `before` is a strict total order on the members of `s`. */
  ghost predicate StrictTotalOrder<T(!new)>(s: set<T>, before: (T, T) -> bool) {
    && (forall x :: x in s ==> !before(x, x))
    && (forall x, y :: x in s && y in s && x != y ==> before(x, y) || before(y, x))
    && (forall x, y, z :: x in s && y in s && z in s && before(x, y) && before(y, z) ==> before(x, z))
  }

  ghost predicate IsFirst<T(!new)>(x: T, s: set<T>, before: (T, T) -> bool) {
    x in s && forall y :: y in s && y != x ==> before(x, y)
  }

  /** Every non-empty finite set has a first member under a strict total order. */
  lemma {:induction false} FirstExists<T(!new)>(s: set<T>, before: (T, T) -> bool) returns (first: T)
    requires s != {} && StrictTotalOrder(s, before)
    ensures IsFirst(first, s, before)
    decreases |s|
  {
    var x :| x in s;
    if s == {x} {
      first := x;
    } else {
      var r := FirstExists(s - {x}, before);
      first := if before(x, r) then x else r;
    }
  }
}
