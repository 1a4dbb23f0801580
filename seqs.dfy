/** List comprehensions: `[x for x in xs if p(x)]`, `sum(1 for x in xs if p(x))`
    and `[g(x) for x in xs if g(x) is not None]`, a map that drops the elements
    without an image, keeping the order of the rest. */
module Seqs {
  import opened Model

  function FilterMap<T, U>(xs: seq<T>, f: T -> Option<U>): (r: seq<U>)
    ensures |r| <= |xs|
    decreases |xs|
  {
    if xs == [] then []
    else
      FilterMap(xs[..|xs| - 1], f)
        + (match f(xs[|xs| - 1]) case Some(u) => [u] case None => [])
  }

  /** An element is kept exactly when it is the image of some element of `xs`. */
  lemma {:induction false} FilterMapExact<T, U>(xs: seq<T>, f: T -> Option<U>, u: U)
    ensures u in FilterMap(xs, f) <==> exists i :: 0 <= i < |xs| && f(xs[i]) == Some(u)
    decreases |xs|
  {
    if xs != [] {
      var init := xs[..|xs| - 1];
      FilterMapExact(init, f, u);
      FilterMapStep(xs, f, u);
      if exists i :: 0 <= i < |init| && f(init[i]) == Some(u) {
        var i :| 0 <= i < |init| && f(init[i]) == Some(u);
        assert xs[i] == init[i];
      }
      if exists i :: 0 <= i < |xs| && f(xs[i]) == Some(u) {
        var i :| 0 <= i < |xs| && f(xs[i]) == Some(u);
        if i < |init| {
          assert init[i] == xs[i];
        }
      }
    }
  }

  lemma FilterMapStep<T, U>(xs: seq<T>, f: T -> Option<U>, u: U)
    requires xs != []
    ensures u in FilterMap(xs, f) <==> u in FilterMap(xs[..|xs| - 1], f) || f(xs[|xs| - 1]) == Some(u)
  {
  }

  function Filter<T>(xs: seq<T>, p: T -> bool): (r: seq<T>)
    ensures |r| <= |xs|
    decreases |xs|
  {
    if xs == [] then []
    else Filter(xs[..|xs| - 1], p) + (if p(xs[|xs| - 1]) then [xs[|xs| - 1]] else [])
  }

  /** The filter keeps exactly the elements that satisfy `p`. */
  lemma {:induction false} FilterExact<T>(xs: seq<T>, p: T -> bool, x: T)
    ensures x in Filter(xs, p) <==> x in xs && p(x)
    decreases |xs|
  {
    if xs != [] {
      FilterExact(xs[..|xs| - 1], p, x);
      assert xs == xs[..|xs| - 1] + [xs[|xs| - 1]];
    }
  }

  /** When every element satisfies `p` the filter keeps the whole sequence. */
  lemma {:induction false} FilterAll<T>(xs: seq<T>, p: T -> bool)
    requires forall i :: 0 <= i < |xs| ==> p(xs[i])
    ensures Filter(xs, p) == xs
    decreases |xs|
  {
    if xs != [] {
      FilterAll(xs[..|xs| - 1], p);
      assert xs == xs[..|xs| - 1] + [xs[|xs| - 1]];
    }
  }

  /** Filtering a concatenation filters the parts. */
  lemma {:induction false} FilterConcat<T>(xs: seq<T>, ys: seq<T>, p: T -> bool)
    ensures Filter(xs + ys, p) == Filter(xs, p) + Filter(ys, p)
    decreases |ys|
  {
    if ys == [] {
      assert xs + ys == xs;
    } else {
      var init := ys[..|ys| - 1];
      FilterConcat(xs, init, p);
      assert (xs + ys)[..|xs + ys| - 1] == xs + init;
      assert (xs + ys)[|xs + ys| - 1] == ys[|ys| - 1];
    }
  }

  /** `sum(1 for x in xs if p(x))` */
  function Count<T>(xs: seq<T>, p: T -> bool): (n: nat)
    ensures n <= |xs|
    decreases |xs|
  {
    if xs == [] then 0
    else Count(xs[..|xs| - 1], p) + (if p(xs[|xs| - 1]) then 1 else 0)
  }

  /** Counting is the length of the filter. */
  lemma {:induction false} CountIsFilterLength<T>(xs: seq<T>, p: T -> bool)
    ensures Count(xs, p) == |Filter(xs, p)|
    decreases |xs|
  {
    if xs != [] {
      CountIsFilterLength(xs[..|xs| - 1], p);
    }
  }

  /** The position of the first element satisfying `p`, or `|xs|` when there is none:
      the search a loop with `break` performs. */
  function FirstIndex<T>(xs: seq<T>, p: T -> bool): (k: nat)
    ensures k <= |xs|
    ensures k < |xs| ==> p(xs[k])
    ensures forall j :: 0 <= j < k ==> !p(xs[j])
    decreases |xs|
  {
    if xs == [] then 0
    else if p(xs[0]) then 0
    else 1 + FirstIndex(xs[1..], p)
  }

  /** `for x in xs: s = f(s, x)`: the state after applying `f` to each element in order. */
  function Fold<S, T>(s: S, xs: seq<T>, f: (S, T) -> S): S
    decreases |xs|
  {
    if xs == [] then s else f(Fold(s, xs[..|xs| - 1], f), xs[|xs| - 1])
  }

  /** Folding over a concatenation folds over the second part from where the first ended. */
  lemma {:induction false} FoldConcat<S, T>(s: S, xs: seq<T>, ys: seq<T>, f: (S, T) -> S)
    ensures Fold(s, xs + ys, f) == Fold(Fold(s, xs, f), ys, f)
    decreases |ys|
  {
    if ys == [] {
      assert xs + ys == xs;
    } else {
      var init := ys[..|ys| - 1];
      FoldConcat(s, xs, init, f);
      assert (xs + ys)[..|xs + ys| - 1] == xs + init;
      assert (xs + ys)[|xs + ys| - 1] == ys[|ys| - 1];
    }
  }

  /** One more element of a prefix is one more step of the fold. */
  lemma FoldLast<S, T>(s: S, xs: seq<T>, k: nat, f: (S, T) -> S)
    requires k < |xs|
    ensures Fold(s, xs[..k + 1], f) == f(Fold(s, xs[..k], f), xs[k])
  {
    assert xs[..k + 1][..k] == xs[..k];
  }

  /** One more element of a prefix is kept exactly when it satisfies the predicate. */
  lemma FilterLast<T>(xs: seq<T>, k: nat, p: T -> bool)
    requires k < |xs|
    ensures Filter(xs[..k + 1], p) == Filter(xs[..k], p) + (if p(xs[k]) then [xs[k]] else [])
  {
    assert xs[..k + 1][..k] == xs[..k];
  }

  /** An element that occurs more often in a sequence than in its first `m` elements
      occurs after them. */
  lemma LeftOut<T>(s: seq<T>, m: nat, x: T) returns (j: nat)
    requires m <= |s| && multiset(s[..m])[x] < multiset(s)[x]
    ensures m <= j < |s| && s[j] == x
  {
    assert s == s[..m] + s[m..];
    assert x in multiset(s[m..]);
    var k :| 0 <= k < |s[m..]| && s[m..][k] == x;
    j := m + k;
  }
}
