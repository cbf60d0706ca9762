/** Python's `sorted`: a stable sort by an order, and the ascending list of a set of integers. */
module Sorting {
  ghost predicate TotalPreorder<T(!new)>(le: (T, T) -> bool) {
    && (forall x, y :: le(x, y) || le(y, x))
    && (forall x, y, z :: le(x, y) && le(y, z) ==> le(x, z))
  }

  ghost predicate Sorted<T>(le: (T, T) -> bool, xs: seq<T>) {
    forall i, j | 0 <= i < j < |xs| :: le(xs[i], xs[j])
  }

  function Insert<T>(le: (T, T) -> bool, x: T, xs: seq<T>): (r: seq<T>)
    ensures multiset(r) == multiset{x} + multiset(xs)
  {
    if xs == [] || le(x, xs[0]) then [x] + xs
    else
      assert xs == [xs[0]] + xs[1..];
      [xs[0]] + Insert(le, x, xs[1..])
  }

  function SortBy<T>(le: (T, T) -> bool, xs: seq<T>): (r: seq<T>)
    ensures multiset(r) == multiset(xs)
  {
    if xs == [] then []
    else
      assert xs == [xs[0]] + xs[1..];
      Insert(le, xs[0], SortBy(le, xs[1..]))
  }

  lemma InsertKeepsMembers<T>(le: (T, T) -> bool, x: T, xs: seq<T>, y: T)
    ensures y in Insert(le, x, xs) <==> y == x || y in xs
  {
    assert y in multiset(Insert(le, x, xs)) <==> y == x || y in multiset(xs);
  }

  lemma {:induction false} InsertSorts<T(!new)>(le: (T, T) -> bool, x: T, xs: seq<T>)
    requires TotalPreorder(le) && Sorted(le, xs)
    ensures Sorted(le, Insert(le, x, xs))
  {
    if xs != [] && !le(x, xs[0]) {
      InsertSorts(le, x, xs[1..]);
      var rest := Insert(le, x, xs[1..]);
      forall y | y in rest
        ensures le(xs[0], y)
      {
        InsertKeepsMembers(le, x, xs[1..], y);
      }
    }
  }

  lemma {:induction false} SortBySorts<T(!new)>(le: (T, T) -> bool, xs: seq<T>)
    requires TotalPreorder(le)
    ensures Sorted(le, SortBy(le, xs))
  {
    if xs != [] {
      SortBySorts(le, xs[1..]);
      InsertSorts(le, xs[0], SortBy(le, xs[1..]));
    }
  }

  lemma SortByKeepsMembers<T>(le: (T, T) -> bool, xs: seq<T>, x: T)
    ensures x in SortBy(le, xs) <==> x in xs
  {
    assert x in multiset(SortBy(le, xs)) <==> x in multiset(xs);
  }

  // ---- sets of integers ----

  predicate Ascending(xs: seq<int>) {
    forall i, j | 0 <= i < j < |xs| :: xs[i] < xs[j]
  }

  /** `sorted(s)` for a set of numbers between `lo` and `hi`. */
  function SortedSet(s: set<int>, lo: int, hi: int): (xs: seq<int>)
    ensures Ascending(xs)
    ensures forall x :: x in xs <==> x in s && lo <= x <= hi
    decreases hi - lo
  {
    if hi < lo then []
    else
      var rest := SortedSet(s, lo + 1, hi);
      assert forall i | 0 <= i < |rest| :: rest[i] in rest;
      if lo in s then [lo] + rest else rest
  }
}
