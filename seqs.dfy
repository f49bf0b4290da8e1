/** The array combinators the stores and pages are written with:
    `filter`, `find`, `map` over the elements with a given id, and sums
    (`forEach` with an accumulator, and `reduce`). */
module Seqs {
  import opened Wrappers

  /** The indices of the elements that satisfy `keep`, in increasing order:
      each kept index once, and only kept indices. */
  function KeptPositions<T>(xs: seq<T>, keep: T -> bool): (pos: seq<nat>)
    ensures forall k :: 0 <= k < |pos| ==> pos[k] < |xs| && keep(xs[pos[k]])
    ensures forall k, l :: 0 <= k < l < |pos| ==> pos[k] < pos[l]
    ensures forall i :: 0 <= i < |xs| && keep(xs[i]) ==> i in pos
  {
    if xs == [] then []
    else
      var init := KeptPositions(xs[..|xs| - 1], keep);
      assert forall k :: 0 <= k < |init| ==> xs[init[k]] == xs[..|xs| - 1][init[k]];
      if keep(xs[|xs| - 1]) then init + [|xs| - 1] else init
  }

  /** `r` lists the elements of `xs` at the indices `pos`, in that order. */
  predicate Picks<T(==)>(xs: seq<T>, pos: seq<nat>, r: seq<T>) {
    |r| == |pos| && forall k :: 0 <= k < |r| ==> pos[k] < |xs| && r[k] == xs[pos[k]]
  }

  /** `xs.filter(keep)`: the elements that satisfy `keep`, in their original order. */
  function Filter<T>(xs: seq<T>, keep: T -> bool): (r: seq<T>)
    ensures |r| <= |xs|
    ensures forall i :: 0 <= i < |r| ==> r[i] in xs && keep(r[i])
    ensures forall i :: 0 <= i < |xs| && keep(xs[i]) ==> xs[i] in r
  {
    if xs == [] then []
    else
      var init := Filter(xs[..|xs| - 1], keep);
      assert xs == xs[..|xs| - 1] + [xs[|xs| - 1]];
      if keep(xs[|xs| - 1]) then init + [xs[|xs| - 1]] else init
  }

  /** The filter keeps exactly the elements at `KeptPositions`: in their
      original order, each as often as it occurs. */
  lemma {:induction false} FilterPicks<T>(xs: seq<T>, keep: T -> bool)
    ensures Picks(xs, KeptPositions(xs, keep), Filter(xs, keep))
  {
    if xs != [] {
      var init := xs[..|xs| - 1];
      FilterPicks(init, keep);
      var last := xs[|xs| - 1];
      var r0, pos0 := Filter(init, keep), KeptPositions(init, keep);
      assert xs == init + [last];
      forall k | 0 <= k < |r0|
        ensures pos0[k] < |xs| && r0[k] == xs[pos0[k]]
      {
        assert r0[k] == init[pos0[k]];
      }
      if keep(last) {
        assert Filter(xs, keep) == r0 + [last];
        assert KeptPositions(xs, keep) == pos0 + [|xs| - 1];
      } else {
        assert Filter(xs, keep) == r0;
        assert KeptPositions(xs, keep) == pos0;
      }
    }
  }

  /** Filtering with a predicate every element satisfies changes nothing. */
  lemma {:induction false} FilterKeepsAll<T>(xs: seq<T>, keep: T -> bool)
    requires forall x :: x in xs ==> keep(x)
    ensures Filter(xs, keep) == xs
  {
    if xs != [] {
      FilterKeepsAll(xs[..|xs| - 1], keep);
      assert xs == xs[..|xs| - 1] + [xs[|xs| - 1]];
    }
  }

  /** Filtering distributes over concatenation: the relative order of the
      survivors is the order they had in the input. */
  lemma {:induction false} FilterAppend<T>(xs: seq<T>, ys: seq<T>, keep: T -> bool)
    ensures Filter(xs + ys, keep) == Filter(xs, keep) + Filter(ys, keep)
  {
    if ys == [] {
      assert xs + ys == xs;
    } else {
      var init := ys[..|ys| - 1];
      FilterAppend(xs, init, keep);
      assert (xs + ys)[..|xs + ys| - 1] == xs + init;
    }
  }

  /** Two filters in a row are one filter by the conjunction. */
  lemma {:induction false} FilterFilter<T>(xs: seq<T>, p: T -> bool, q: T -> bool, both: T -> bool)
    requires forall x :: both(x) == (p(x) && q(x))
    ensures Filter(Filter(xs, p), q) == Filter(xs, both)
  {
    if xs != [] {
      var init := xs[..|xs| - 1];
      FilterFilter(init, p, q, both);
      var last := xs[|xs| - 1];
      if p(last) {
        assert (Filter(init, p) + [last])[..|Filter(init, p)|] == Filter(init, p);
      }
    }
  }

  /** Filters whose predicates agree on the input give the same result. */
  lemma {:induction false} FilterCongruent<T>(xs: seq<T>, p: T -> bool, q: T -> bool)
    requires forall x :: x in xs ==> p(x) == q(x)
    ensures Filter(xs, p) == Filter(xs, q)
  {
    if xs != [] {
      FilterCongruent(xs[..|xs| - 1], p, q);
    }
  }

  /** `key` strictly increases along `xs`. */
  predicate Increasing<T>(xs: seq<T>, key: T -> int) {
    forall i, j :: 0 <= i < j < |xs| ==> key(xs[i]) < key(xs[j])
  }

  /** Filtering keeps the survivors in their original relative order: a
      key that increases along the input increases along the output. */
  lemma {:induction false} FilterKeepsOrder<T>(xs: seq<T>, keep: T -> bool, key: T -> int)
    requires Increasing(xs, key)
    ensures Increasing(Filter(xs, keep), key)
  {
    if xs != [] {
      var init, last := xs[..|xs| - 1], xs[|xs| - 1];
      FilterKeepsOrder(init, keep, key);
      var r0 := Filter(init, keep);
      forall i | 0 <= i < |r0|
        ensures key(r0[i]) < key(last)
      {
        var k :| 0 <= k < |init| && init[k] == r0[i];
        assert xs[k] == init[k];
      }
      if keep(last) {
        var r := r0 + [last];
        assert Filter(xs, keep) == r;
        forall i, j | 0 <= i < j < |r|
          ensures key(r[i]) < key(r[j])
        {
          assert r[i] == r0[i];
          if j < |r0| {
            assert r[j] == r0[j];
          } else {
            assert r[j] == last;
          }
        }
      } else {
        assert Filter(xs, keep) == r0;
      }
    }
  }

  /** The index of the first element satisfying `p` (`findIndex`). */
  function FindIndex<T>(xs: seq<T>, p: T -> bool): (r: Option<nat>)
    ensures r.None? <==> forall i :: 0 <= i < |xs| ==> !p(xs[i])
    ensures r.Some? ==> r.value < |xs| && p(xs[r.value])
    ensures r.Some? ==> forall j :: 0 <= j < r.value ==> !p(xs[j])
  {
    if xs == [] then None
    else if p(xs[0]) then Some(0)
    else match FindIndex(xs[1..], p)
      case None => None
      case Some(i) => Some(i + 1)
  }

  /** `xs.find(p)`: the first element satisfying `p`, or nothing. */
  function Find<T>(xs: seq<T>, p: T -> bool): (r: Option<T>)
    ensures r.None? <==> forall i :: 0 <= i < |xs| ==> !p(xs[i])
    ensures r.Some? ==> r.value in xs && p(r.value)
    ensures r.Some? ==> exists i :: 0 <= i < |xs| && xs[i] == r.value && forall j :: 0 <= j < i ==> !p(xs[j])
  {
    match FindIndex(xs, p)
    case None => None
    case Some(i) => Some(xs[i])
  }

  /** `xs.map(x => sel(x) ? f(x) : x)`: the selected elements are replaced
      by their image under `f`; every other element stays where it was. */
  function MapWhere<T>(xs: seq<T>, sel: T -> bool, f: T -> T): (r: seq<T>)
    ensures |r| == |xs|
    ensures forall i :: 0 <= i < |xs| && sel(xs[i]) ==> r[i] == f(xs[i])
    ensures forall i :: 0 <= i < |xs| && !sel(xs[i]) ==> r[i] == xs[i]
  {
    if xs == [] then []
    else
      var last := xs[|xs| - 1];
      MapWhere(xs[..|xs| - 1], sel, f) + [if sel(last) then f(last) else last]
  }

  /** The sum of `f` over the elements, added up from first to last
      (a `forEach` loop with `total +=`). */
  function SumOf<T>(xs: seq<T>, f: T -> int): int
  {
    if xs == [] then 0 else SumOf(xs[..|xs| - 1], f) + f(xs[|xs| - 1])
  }

  lemma {:induction false} SumAppend<T>(xs: seq<T>, ys: seq<T>, f: T -> int)
    ensures SumOf(xs + ys, f) == SumOf(xs, f) + SumOf(ys, f)
  {
    if ys == [] {
      assert xs + ys == xs;
    } else {
      SumAppend(xs, ys[..|ys| - 1], f);
      assert (xs + ys)[..|xs + ys| - 1] == xs + ys[..|ys| - 1];
    }
  }

  lemma {:induction false} SumCongruent<T>(xs: seq<T>, f: T -> int, g: T -> int)
    requires forall x :: x in xs ==> f(x) == g(x)
    ensures SumOf(xs, f) == SumOf(xs, g)
  {
    if xs != [] {
      SumCongruent(xs[..|xs| - 1], f, g);
    }
  }

  lemma {:induction false} SumNonNegative<T>(xs: seq<T>, f: T -> int)
    requires forall x :: x in xs ==> f(x) >= 0
    ensures SumOf(xs, f) >= 0
  {
    if xs != [] {
      SumNonNegative(xs[..|xs| - 1], f);
    }
  }

  /** Dropping the elements where `f` is not positive does not change the
      sum when `f` is never negative. */
  lemma {:induction false} SumWithoutZeros<T>(xs: seq<T>, f: T -> int, positive: T -> bool)
    requires forall x :: x in xs ==> f(x) >= 0
    requires forall x :: positive(x) == (f(x) > 0)
    ensures SumOf(Filter(xs, positive), f) == SumOf(xs, f)
  {
    if xs != [] {
      var init, last := xs[..|xs| - 1], xs[|xs| - 1];
      assert forall x :: x in init ==> x in xs;
      SumWithoutZeros(init, f, positive);
      if positive(last) {
        var r0 := Filter(init, positive);
        assert (r0 + [last])[..|r0|] == r0;
      }
    }
  }

  /** A sum does not depend on the order of the elements. */
  lemma {:induction false} SumPermutation<T>(xs: seq<T>, ys: seq<T>, f: T -> int)
    requires multiset(xs) == multiset(ys)
    ensures SumOf(xs, f) == SumOf(ys, f)
    decreases |xs|
  {
    if xs != [] {
      var init, x := xs[..|xs| - 1], xs[|xs| - 1];
      assert xs == init + [x];
      assert x in multiset(ys);
      var k :| 0 <= k < |ys| && ys[k] == x;
      var rest := ys[..k] + ys[k + 1..];
      assert ys == ys[..k] + [x] + ys[k + 1..];
      assert multiset(xs) == multiset(init) + multiset{x};
      assert multiset(ys) == multiset(ys[..k]) + multiset{x} + multiset(ys[k + 1..]);
      assert multiset(rest) == multiset(ys[..k]) + multiset(ys[k + 1..]);
      assert multiset(init) + multiset{x} == multiset(rest) + multiset{x};
      forall y
        ensures multiset(init)[y] == multiset(rest)[y]
      {
        assert (multiset(init) + multiset{x})[y] == (multiset(rest) + multiset{x})[y];
      }
      assert multiset(init) == multiset(rest);
      SumPermutation(init, rest, f);
      SumAppend(ys[..k], ys[k + 1..], f);
      SumAppend(ys[..k] + [x], ys[k + 1..], f);
    }
  }

  /** `xs.reduce((acc, x) => acc + f(x), acc)`: the same sum, folded from the left. */
  function FoldSum<T>(acc: int, xs: seq<T>, f: T -> int): int
    decreases xs
  {
    if xs == [] then acc else FoldSum(acc + f(xs[0]), xs[1..], f)
  }

  lemma {:induction false} FoldSumIsSum<T>(acc: int, xs: seq<T>, f: T -> int)
    ensures FoldSum(acc, xs, f) == acc + SumOf(xs, f)
    decreases xs
  {
    if xs != [] {
      FoldSumIsSum(acc + f(xs[0]), xs[1..], f);
      assert [xs[0]] + xs[1..] == xs;
      SumAppend([xs[0]], xs[1..], f);
    }
  }
}
