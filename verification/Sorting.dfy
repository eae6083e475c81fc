/** A stable sort, standing in for Go's sort package, and what any order-respecting sort must return. */
module Sorting {

  /** A strict weak order, as Go's sort functions demand of the comparison they are given. */
  ghost predicate IsOrder<T(!new)>(less: (T, T) -> bool) {
    && (forall x, y :: less(x, y) ==> !less(y, x))
    && (forall x, y, z :: !less(y, x) && !less(z, y) ==> !less(z, x))
  }

  ghost predicate Sorted<T(!new)>(s: seq<T>, less: (T, T) -> bool) {
    forall i, j :: 0 <= i < j < |s| ==> !less(s[j], s[i])
  }

  function Insert<T>(x: T, s: seq<T>, less: (T, T) -> bool): (r: seq<T>)
    ensures |r| == |s| + 1
  {
    if s == [] || !less(x, s[|s| - 1]) then s + [x]
    else Insert(x, s[..|s| - 1], less) + [s[|s| - 1]]
  }

  function StableSort<T>(s: seq<T>, less: (T, T) -> bool): (r: seq<T>)
    ensures |r| == |s|
  {
    if s == [] then [] else Insert(s[|s| - 1], StableSort(s[..|s| - 1], less), less)
  }

  lemma {:induction false} InsertPermutes<T(!new)>(x: T, s: seq<T>, less: (T, T) -> bool)
    ensures multiset(Insert(x, s, less)) == multiset(s) + multiset{x}
  {
    if s != [] {
      assert s == s[..|s| - 1] + [s[|s| - 1]];
      InsertPermutes(x, s[..|s| - 1], less);
    }
  }

  lemma {:induction false} SortPermutes<T(!new)>(s: seq<T>, less: (T, T) -> bool)
    ensures multiset(StableSort(s, less)) == multiset(s)
  {
    if s != [] {
      assert s == s[..|s| - 1] + [s[|s| - 1]];
      SortPermutes(s[..|s| - 1], less);
      InsertPermutes(s[|s| - 1], StableSort(s[..|s| - 1], less), less);
    }
  }

  lemma SortKeepsMembers<T(!new)>(s: seq<T>, less: (T, T) -> bool, x: T)
    ensures x in StableSort(s, less) <==> x in s
  {
    SortPermutes(s, less);
    assert x in multiset(StableSort(s, less)) <==> x in multiset(s);
  }

  lemma {:induction false} InsertSorts<T(!new)>(x: T, s: seq<T>, less: (T, T) -> bool)
    requires IsOrder(less) && Sorted(s, less)
    ensures Sorted(Insert(x, s, less), less)
  {
    if s != [] && less(x, s[|s| - 1]) {
      var front, last := s[..|s| - 1], s[|s| - 1];
      InsertSorts(x, front, less);
      InsertPermutes(x, front, less);
      var r := Insert(x, front, less);
      forall i | 0 <= i < |r| ensures !less(last, r[i]) {
        assert r[i] in multiset(r);
        assert r[i] == x || r[i] in front;
      }
    }
  }

  lemma {:induction false} SortSorts<T(!new)>(s: seq<T>, less: (T, T) -> bool)
    requires IsOrder(less)
    ensures Sorted(StableSort(s, less), less)
  {
    if s != [] {
      SortSorts(s[..|s| - 1], less);
      InsertSorts(s[|s| - 1], StableSort(s[..|s| - 1], less), less);
    }
  }

  /** The order tells any two different elements of s apart. */
  ghost predicate Separates<T(!new)>(s: seq<T>, less: (T, T) -> bool) {
    forall x, y :: x in s && y in s && x != y ==> less(x, y) || less(y, x)
  }

  lemma SortedHeadsAgree<T(!new)>(a: seq<T>, b: seq<T>, less: (T, T) -> bool)
    requires a != [] && b != [] && multiset(a) == multiset(b) && Sorted(a, less) && Sorted(b, less)
    requires Separates(a, less)
    ensures a[0] == b[0]
  {
    assert a[0] in multiset(b) && b[0] in multiset(a);
    var i :| 0 <= i < |a| && a[i] == b[0];
    var j :| 0 <= j < |b| && b[j] == a[0];
    assert i == 0 || !less(a[i], a[0]);
    assert j == 0 || !less(b[j], b[0]);
  }

  /** All sorted permutations are then the same, so neither the sorting algorithm nor the input order can
      change the result. */
  lemma {:induction false} SortedUnique<T(!new)>(a: seq<T>, b: seq<T>, less: (T, T) -> bool)
    requires multiset(a) == multiset(b) && Sorted(a, less) && Sorted(b, less) && Separates(a, less)
    ensures a == b
    decreases |a|
  {
    assert |multiset(a)| == |a| && |multiset(b)| == |b|;
    if a != [] {
      SortedHeadsAgree(a, b, less);
      var a', b' := a[1..], b[1..];
      assert a == [a[0]] + a' && b == [b[0]] + b';
      assert multiset(a') == multiset(a) - multiset{a[0]} && multiset(b') == multiset(b) - multiset{b[0]};
      assert Separates(a', less) by { assert forall x :: x in a' ==> x in a; }
      SortedUnique(a', b', less);
    }
  }

  /** The least element, the earliest of several. */
  function First<T>(s: seq<T>, less: (T, T) -> bool): T
    requires s != []
  {
    var last := s[|s| - 1];
    if |s| == 1 then last
    else
      var best := First(s[..|s| - 1], less);
      if less(last, best) then last else best
  }

  lemma {:induction false} InsertHead<T(!new)>(x: T, s: seq<T>, less: (T, T) -> bool)
    requires IsOrder(less) && Sorted(s, less) && s != []
    ensures Insert(x, s, less)[0] == if less(x, s[0]) then x else s[0]
  {
    if |s| > 1 {
      InsertHead(x, s[..|s| - 1], less);
      assert !less(s[|s| - 1], s[0]);
    }
  }

  lemma {:induction false} SortHead<T(!new)>(s: seq<T>, less: (T, T) -> bool)
    requires IsOrder(less) && s != []
    ensures StableSort(s, less)[0] == First(s, less)
  {
    var front := s[..|s| - 1];
    if front != [] {
      SortHead(front, less);
      SortSorts(front, less);
      InsertHead(s[|s| - 1], StableSort(front, less), less);
    }
  }

  lemma FirstIsLeast<T(!new)>(s: seq<T>, less: (T, T) -> bool)
    requires IsOrder(less) && s != []
    ensures First(s, less) in s
    ensures forall x :: x in s ==> !less(x, First(s, less))
  {
    SortHead(s, less);
    SortSorts(s, less);
    var r := StableSort(s, less);
    SortKeepsMembers(s, less, r[0]);
    forall x | x in s ensures !less(x, r[0]) {
      SortKeepsMembers(s, less, x);
      var k :| 0 <= k < |r| && r[k] == x;
      assert !less(x, r[0]);
    }
  }
}
