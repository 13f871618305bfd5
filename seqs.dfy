/** `Array.prototype.filter` and the facts about it that the pages' list logic relies on. */
module Seqs {

  /** `a` can be obtained from `b` by deleting elements, keeping the order of the rest. */
  predicate SubsequenceOf<T(==)>(a: seq<T>, b: seq<T>)
    decreases |b|
  {
    if a == [] then true
    else if b == [] then false
    else (a[0] == b[0] && SubsequenceOf(a[1..], b[1..])) || SubsequenceOf(a, b[1..])
  }

  /** `xs.filter(keep)`: the elements satisfying `keep`, in their original order. */
  function Filter<T(==)>(xs: seq<T>, keep: T -> bool): (r: seq<T>)
    ensures |r| <= |xs|
    ensures forall i | 0 <= i < |r| :: keep(r[i]) && r[i] in xs
    ensures forall i | 0 <= i < |xs| :: keep(xs[i]) ==> xs[i] in r
    ensures SubsequenceOf(r, xs)
  {
    if xs == [] then []
    else if keep(xs[0]) then [xs[0]] + Filter(xs[1..], keep)
    else Filter(xs[1..], keep)
  }

  /** The filter keeps each passing element as many times as it occurs, and drops the rest. */
  lemma {:induction false} FilterCounts<T>(xs: seq<T>, keep: T -> bool)
    ensures forall v | v in xs :: multiset(Filter(xs, keep))[v] == if keep(v) then multiset(xs)[v] else 0
  {
    if xs != [] {
      var rest := xs[1..];
      FilterCounts(rest, keep);
      assert xs == [xs[0]] + rest;
      var r := Filter(xs, keep);
      forall v | v in xs ensures multiset(r)[v] == if keep(v) then multiset(xs)[v] else 0 {
        if v !in rest {
          assert multiset(rest)[v] == 0;
          assert multiset(Filter(rest, keep))[v] == 0;
        }
      }
    }
  }

  /** The positions of `xs` whose element satisfies `keep`. */
  function IndicesWhere<T>(xs: seq<T>, keep: T -> bool): set<nat> {
    set i: nat | i < |xs| && keep(xs[i])
  }

  lemma {:induction false} FilterAppend<T>(a: seq<T>, b: seq<T>, keep: T -> bool)
    ensures Filter(a + b, keep) == Filter(a, keep) + Filter(b, keep)
  {
    if a == [] {
      assert a + b == b;
    } else {
      assert (a + b)[1..] == a[1..] + b;
      FilterAppend(a[1..], b, keep);
    }
  }

  /** The filtered list is as long as the number of positions that pass the test. */
  lemma {:induction false} FilterSize<T>(xs: seq<T>, keep: T -> bool)
    ensures |Filter(xs, keep)| == |IndicesWhere(xs, keep)|
  {
    if xs != [] {
      var n := |xs| - 1;
      var init, last := xs[..n], xs[n];
      assert xs == init + [last];
      FilterAppend(init, [last], keep);
      FilterSize(init, keep);
      FilterOne(last, keep);
      IndicesSnoc(init, last, keep);
    }
  }

  lemma FilterOne<T>(x: T, keep: T -> bool)
    ensures |Filter([x], keep)| == if keep(x) then 1 else 0
  {
    assert [x][1..] == [];
  }

  /** Appending an element adds its position exactly when it passes the test. */
  lemma IndicesSnoc<T>(init: seq<T>, last: T, keep: T -> bool)
    ensures |IndicesWhere(init + [last], keep)| == |IndicesWhere(init, keep)| + if keep(last) then 1 else 0
  {
    var xs, n, before := init + [last], |init|, IndicesWhere(init, keep);
    forall i: nat ensures i in IndicesWhere(xs, keep) <==> i in before || (i == n && keep(last)) {
      if i < n {
        assert xs[i] == init[i];
      }
    }
    if keep(last) {
      assert IndicesWhere(xs, keep) == before + {n};
    } else {
      assert IndicesWhere(xs, keep) == before;
    }
  }

  /** A test every element passes keeps the whole list. */
  lemma {:induction false} FilterKeepsAll<T>(xs: seq<T>, keep: T -> bool)
    requires forall i | 0 <= i < |xs| :: keep(xs[i])
    ensures Filter(xs, keep) == xs
  {
    if xs != [] {
      FilterKeepsAll(xs[1..], keep);
    }
  }

  /** When at most one element fails the test, the filter drops at most one element. */
  lemma {:induction false} FilterDropsAtMostOne<T>(xs: seq<T>, keep: T -> bool)
    requires forall i, j | 0 <= i < j < |xs| :: keep(xs[i]) || keep(xs[j])
    ensures |Filter(xs, keep)| >= |xs| - 1
  {
    if xs != [] {
      if keep(xs[0]) {
        FilterDropsAtMostOne(xs[1..], keep);
      } else {
        forall i | 0 <= i < |xs[1..]| ensures keep(xs[1..][i]) {
          assert keep(xs[0]) || keep(xs[i + 1]);
        }
        FilterKeepsAll(xs[1..], keep);
      }
    }
  }

  /** Two tests that agree on every element filter alike. */
  lemma {:induction false} FilterSameTest<T>(xs: seq<T>, keep: T -> bool, other: T -> bool)
    requires forall i | 0 <= i < |xs| :: keep(xs[i]) == other(xs[i])
    ensures Filter(xs, keep) == Filter(xs, other)
  {
    if xs != [] {
      FilterSameTest(xs[1..], keep, other);
    }
  }

  /** Two tests that no element passes both select, together, at most all the elements. */
  lemma {:induction false} DisjointFilters<T>(xs: seq<T>, p: T -> bool, q: T -> bool)
    requires forall i | 0 <= i < |xs| :: !(p(xs[i]) && q(xs[i]))
    ensures |Filter(xs, p)| + |Filter(xs, q)| <= |xs|
  {
    if xs != [] {
      DisjointFilters(xs[1..], p, q);
    }
  }
}
