/** Ordering of rows by a numeric key, ascending or descending. Used for the
    ORM's `orderBy`, for the history that the metrics engine reads (dates
    ascending) and for the dashboard lists. The sort is an insertion sort that
    places a later element after every earlier one with the same key, so it is
    stable like `Array.prototype.sort`. */
module Sorting {

  datatype Direction = Asc | Desc

  /** `a` may come before `b` in direction `dir`. */
  predicate InOrder(dir: Direction, a: real, b: real) {
    if dir == Asc then a <= b else a >= b
  }

  /** `a` must come before `b` in direction `dir`. */
  predicate StrictlyBefore(dir: Direction, a: real, b: real) {
    if dir == Asc then a < b else a > b
  }

  predicate Sorted<T>(s: seq<T>, key: T -> real, dir: Direction) {
    forall i, j :: 0 <= i < j < |s| ==> InOrder(dir, key(s[i]), key(s[j]))
  }

  function Insert<T(==,!new)>(x: T, s: seq<T>, key: T -> real, dir: Direction): (r: seq<T>)
    requires Sorted(s, key, dir)
    ensures |r| == |s| + 1
    ensures multiset(r) == multiset(s) + multiset{x}
    ensures forall y :: y in r <==> y == x || y in s
    ensures Sorted(r, key, dir)
    decreases |s|
  {
    if s == [] then [x]
    else if StrictlyBefore(dir, key(x), key(s[0])) then
      InsertFront(x, s, key, dir);
      [x] + s
    else
      var rest := Insert(x, s[1..], key, dir);
      InsertAfterHead(x, s, rest, key, dir);
      [s[0]] + rest
  }

  /** An element strictly before the head of a sorted sequence goes in front. */
  lemma InsertFront<T>(x: T, s: seq<T>, key: T -> real, dir: Direction)
    requires Sorted(s, key, dir) && s != [] && StrictlyBefore(dir, key(x), key(s[0]))
    ensures Sorted([x] + s, key, dir)
  {
    forall y | y in s
      ensures InOrder(dir, key(x), key(y))
    {
      var j :| 0 <= j < |s| && s[j] == y;
      if j > 0 {
        assert InOrder(dir, key(s[0]), key(s[j]));
      }
    }
    SortedCons(x, s, key, dir);
  }

  /** An element not before the head of a sorted sequence, inserted into its
      tail, leaves the head in front of a sorted sequence with the same
      elements plus the new one. */
  lemma InsertAfterHead<T>(x: T, s: seq<T>, rest: seq<T>, key: T -> real, dir: Direction)
    requires Sorted(s, key, dir) && s != [] && !StrictlyBefore(dir, key(x), key(s[0]))
    requires Sorted(rest, key, dir) && multiset(rest) == multiset(s[1..]) + multiset{x}
    ensures multiset([s[0]] + rest) == multiset(s) + multiset{x}
    ensures Sorted([s[0]] + rest, key, dir)
  {
    assert s == [s[0]] + s[1..];
    forall y | y in rest
      ensures InOrder(dir, key(s[0]), key(y))
    {
      assert y in multiset(rest);
      if y != x {
        var j :| 0 <= j < |s[1..]| && s[1..][j] == y;
        assert s[j + 1] == y;
      }
    }
    SortedCons(s[0], rest, key, dir);
  }

  /** An element that may come before every element of a sorted sequence
      extends it at the front. */
  lemma SortedCons<T>(x: T, s: seq<T>, key: T -> real, dir: Direction)
    requires Sorted(s, key, dir)
    requires forall y :: y in s ==> InOrder(dir, key(x), key(y))
    ensures Sorted([x] + s, key, dir)
  {
    var r := [x] + s;
    forall i, j | 0 <= i < j < |r|
      ensures InOrder(dir, key(r[i]), key(r[j]))
    {
      assert r[j] == s[j - 1];
      if i > 0 {
        assert r[i] == s[i - 1];
      }
    }
  }

  /** The elements of `s` ordered by `key` in direction `dir`. */
  function SortBy<T(==,!new)>(s: seq<T>, key: T -> real, dir: Direction): (r: seq<T>)
    ensures |r| == |s|
    ensures multiset(r) == multiset(s)
    ensures forall x :: x in r <==> x in s
    ensures Sorted(r, key, dir)
    decreases |s|
  {
    if s == [] then []
    else
      var init := s[..|s| - 1];
      assert s == init + [s[|s| - 1]];
      Insert(s[|s| - 1], SortBy(init, key, dir), key, dir)
  }
}
