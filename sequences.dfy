/**
 * Order-preserving filtering over sequences.
 *
 * Every recipient computation in the handlers is a walk over an array of
 * member ids that keeps some of them in their original order (a `for ... of`
 * loop with `continue`, or `Array.prototype.filter`).  `Filter` is that walk
 * stated once, with the predicate passed in; the lemmas below are the facts
 * the handlers rely on.
 */
module Sequences {

  /** The elements of `xs` that satisfy `p`, in the order of `xs`, duplicates kept. */
  function Filter<T>(xs: seq<T>, p: T -> bool): (r: seq<T>)
    ensures |r| <= |xs|
  {
    if xs == [] then []
    else Filter(xs[..|xs| - 1], p) + (if p(xs[|xs| - 1]) then [xs[|xs| - 1]] else [])
  }

  /** Appending one element extends the filtered result by that element exactly when it passes. */
  lemma FilterSnoc<T>(xs: seq<T>, x: T, p: T -> bool)
    ensures Filter(xs + [x], p) == Filter(xs, p) + (if p(x) then [x] else [])
  {
  }

  /** An element is kept exactly when it occurs in the input and passes the predicate. */
  lemma {:induction false} FilterMembership<T>(xs: seq<T>, p: T -> bool, x: T)
    ensures x in Filter(xs, p) <==> x in xs && p(x)
  {
    if xs != [] {
      var init, last := xs[..|xs| - 1], xs[|xs| - 1];
      assert xs == init + [last];
      FilterMembership(init, p, x);
    }
  }

  /** Every element of the result passes the predicate. */
  lemma {:induction false} FilterAllPass<T>(xs: seq<T>, p: T -> bool)
    ensures forall k :: 0 <= k < |Filter(xs, p)| ==> p(Filter(xs, p)[k])
  {
    if xs != [] {
      FilterAllPass(xs[..|xs| - 1], p);
    }
  }

  /** Filtering distributes over concatenation: the walk keeps the input order. */
  lemma {:induction false} FilterConcat<T>(xs: seq<T>, ys: seq<T>, p: T -> bool)
    ensures Filter(xs + ys, p) == Filter(xs, p) + Filter(ys, p)
    decreases |ys|
  {
    if ys == [] {
      assert xs + ys == xs;
    } else {
      var init, last := ys[..|ys| - 1], ys[|ys| - 1];
      assert ys == init + [last];
      assert xs + ys == (xs + init) + [last];
      FilterSnoc(xs + init, last, p);
      FilterSnoc(init, last, p);
      FilterConcat(xs, init, p);
    }
  }

  /** Each element occurs in the result as often as in the input when it passes, and never otherwise. */
  lemma {:induction false} FilterCount<T>(xs: seq<T>, p: T -> bool, x: T)
    ensures multiset(Filter(xs, p))[x] == if p(x) then multiset(xs)[x] else 0
  {
    if xs != [] {
      var init, last := xs[..|xs| - 1], xs[|xs| - 1];
      assert xs == init + [last];
      FilterCount(init, p, x);
    }
  }

  /** Two predicates that agree on the elements of `xs` filter `xs` alike. */
  lemma {:induction false} FilterAgree<T>(xs: seq<T>, p: T -> bool, q: T -> bool)
    requires forall k :: 0 <= k < |xs| ==> p(xs[k]) == q(xs[k])
    ensures Filter(xs, p) == Filter(xs, q)
  {
    if xs != [] {
      FilterAgree(xs[..|xs| - 1], p, q);
    }
  }

  /** A predicate that holds of every element keeps the whole input. */
  lemma {:induction false} FilterKeepsAll<T>(xs: seq<T>, p: T -> bool)
    requires forall k :: 0 <= k < |xs| ==> p(xs[k])
    ensures Filter(xs, p) == xs
  {
    if xs != [] {
      FilterKeepsAll(xs[..|xs| - 1], p);
    }
  }

  /** A predicate that holds of no element keeps nothing. */
  lemma {:induction false} FilterKeepsNone<T>(xs: seq<T>, p: T -> bool)
    requires forall k :: 0 <= k < |xs| ==> !p(xs[k])
    ensures Filter(xs, p) == []
  {
    if xs != [] {
      FilterKeepsNone(xs[..|xs| - 1], p);
    }
  }

  /** The conjunction of two predicates. */
  function Both<T>(p: T -> bool, q: T -> bool): T -> bool
  {
    x => p(x) && q(x)
  }

  /** Filtering twice is filtering once by both predicates. */
  lemma {:induction false} FilterFilter<T>(xs: seq<T>, p: T -> bool, q: T -> bool)
    ensures Filter(Filter(xs, p), q) == Filter(xs, Both(p, q))
  {
    if xs != [] {
      var init, last := xs[..|xs| - 1], xs[|xs| - 1];
      FilterFilter(init, p, q);
      FilterConcat(Filter(init, p), if p(last) then [last] else [], q);
      if p(last) {
        FilterSnoc([], last, q);
      }
    }
  }

  /** `x !in ys`, as a predicate: the test inside `xs.filter(m => !ys.includes(m))`. */
  function NotIn<T(==)>(ys: seq<T>): T -> bool
  {
    x => x !in ys
  }

  /** The elements of `xs` that are not in `ys`, in the order of `xs` (`xs.filter(m => !ys.includes(m))`). */
  function Without<T(==,!new)>(xs: seq<T>, ys: seq<T>): (r: seq<T>)
    ensures forall x :: x in r <==> x in xs && x !in ys
  {
    var r := Filter(xs, NotIn(ys));
    assert forall x :: x in r <==> x in xs && x !in ys by {
      forall x ensures x in r <==> x in xs && x !in ys {
        FilterMembership(xs, NotIn(ys), x);
      }
    }
    r
  }

  /** The difference is empty exactly when every element of `xs` also occurs in `ys`. */
  lemma WithoutEmpty<T(!new)>(xs: seq<T>, ys: seq<T>)
    ensures Without(xs, ys) == [] <==> forall x :: x in xs ==> x in ys
  {
    if Without(xs, ys) != [] {
      var x := Without(xs, ys)[0];
      assert x in Without(xs, ys);
    }
  }
}
