/** One concrete order for std::sort: insertion sort by machine load. */
module Sorting {
  import opened Tables
  import opened Bandwidth

  predicate Before(util: Util, a: nat, b: nat, descending: bool)
    requires a < |util| && b < |util| && |util[a]| == |util[b]| == 2
  {
    if descending then Total(util, a) >= Total(util, b) else Total(util, a) <= Total(util, b)
  }

  predicate Ordered(util: Util, n: nat, xs: seq<nat>, descending: bool)
    requires Rect(util, n, 2) && Machines(n, xs)
  {
    forall k, l :: 0 <= k < l < |xs| ==> Before(util, xs[k], xs[l], descending)
  }

  lemma SortIsOrdered(util: Util, n: nat, xs: seq<nat>, ys: seq<nat>, descending: bool)
    requires Rect(util, n, 2) && IsSort(util, n, xs, ys, descending)
    ensures Machines(n, ys) && Ordered(util, n, ys, descending)
  {
  }

  function Insert(util: Util, n: nat, x: nat, xs: seq<nat>, descending: bool): (r: seq<nat>)
    requires Rect(util, n, 2) && Machines(n, xs) && x < n
    ensures multiset(r) == multiset(xs) + multiset{x}
    ensures Machines(n, r)
    ensures forall k :: 0 <= k < |r| ==> r[k] == x || r[k] in xs
  {
    if xs == [] then [x]
    else if Before(util, x, xs[0], descending) then [x] + xs
    else
      assert xs == [xs[0]] + xs[1..];
      [xs[0]] + Insert(util, n, x, xs[1..], descending)
  }

  lemma {:induction false} InsertOrdered(util: Util, n: nat, x: nat, xs: seq<nat>, descending: bool)
    requires Rect(util, n, 2) && Machines(n, xs) && x < n && Ordered(util, n, xs, descending)
    ensures Ordered(util, n, Insert(util, n, x, xs, descending), descending)
    decreases |xs|
  {
    if xs != [] && !Before(util, x, xs[0], descending) {
      InsertOrdered(util, n, x, xs[1..], descending);
      var rest := Insert(util, n, x, xs[1..], descending);
      forall l | 0 <= l < |rest| ensures Before(util, xs[0], rest[l], descending) {
        if rest[l] != x {
          var i :| 0 <= i < |xs[1..]| && xs[1..][i] == rest[l];
          assert xs[i + 1] == rest[l];
        }
      }
    }
  }

  function SortBy(util: Util, n: nat, xs: seq<nat>, descending: bool): (r: seq<nat>)
    requires Rect(util, n, 2) && Machines(n, xs)
    ensures multiset(r) == multiset(xs) && Machines(n, r)
  {
    if xs == [] then []
    else
      assert xs == [xs[0]] + xs[1..];
      Insert(util, n, xs[0], SortBy(util, n, xs[1..], descending), descending)
  }

  lemma {:induction false} SortByOrdered(util: Util, n: nat, xs: seq<nat>, descending: bool)
    requires Rect(util, n, 2) && Machines(n, xs)
    ensures Ordered(util, n, SortBy(util, n, xs, descending), descending)
    decreases |xs|
  {
    if xs != [] {
      SortByOrdered(util, n, xs[1..], descending);
      InsertOrdered(util, n, xs[0], SortBy(util, n, xs[1..], descending), descending);
    }
  }

  /** Insertion sort produces one of the orders that the theorems allow. */
  lemma SortByIsSort(util: Util, n: nat, xs: seq<nat>, descending: bool)
    requires Rect(util, n, 2) && Machines(n, xs)
    ensures IsSort(util, n, xs, SortBy(util, n, xs, descending), descending)
  {
    var ys := SortBy(util, n, xs, descending);
    SortByOrdered(util, n, xs, descending);
    forall k, l | 0 <= k < l < |ys| ensures Before(util, ys[k], ys[l], descending) {
    }
  }
}
