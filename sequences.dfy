/**
 * `Array.prototype.filter`: `Where` is its meaning, `Filter` the loop that
 * computes it, and `IsSubsequence` the order-preservation it promises.
 */
module Sequences {

  /** The elements of `xs` that satisfy `p`, in their original order (with repetitions). */
  function Where<T(!new)>(xs: seq<T>, p: T -> bool): (r: seq<T>)
    ensures |r| <= |xs|
  {
    if xs == [] then []
    else Where(xs[..|xs| - 1], p) + (if p(xs[|xs| - 1]) then [xs[|xs| - 1]] else [])
  }

  /** A filter keeps exactly the elements that satisfy its predicate, each as often as it occurs. */
  lemma {:induction false} WhereMembers<T(!new)>(xs: seq<T>, p: T -> bool)
    ensures forall x :: multiset(Where(xs, p))[x] == if p(x) then multiset(xs)[x] else 0
    ensures forall x :: x in Where(xs, p) <==> x in xs && p(x)
    decreases |xs|
  {
    if xs != [] {
      var init, last := xs[..|xs| - 1], xs[|xs| - 1];
      assert xs == init + [last];
      WhereMembers(init, p);
      assert multiset(xs) == multiset(init) + multiset{last};
    }
  }

  /** `a` is obtained from `b` by deleting elements, without reordering the rest. */
  ghost predicate IsSubsequence<T>(a: seq<T>, b: seq<T>)
    decreases |b|
  {
    if a == [] then true
    else if b == [] then false
    else
      (a[|a| - 1] == b[|b| - 1] && IsSubsequence(a[..|a| - 1], b[..|b| - 1]))
      || IsSubsequence(a, b[..|b| - 1])
  }

  /** `xs.filter(p)`, one element at a time. */
  method Filter<T(!new)>(xs: seq<T>, p: T -> bool) returns (ys: seq<T>)
    ensures ys == Where(xs, p)
  {
    ys := [];
    var i := 0;
    while i < |xs|
      invariant 0 <= i <= |xs|
      invariant ys == Where(xs[..i], p)
    {
      assert xs[..i + 1] == xs[..i] + [xs[i]];
      WhereSnoc(xs[..i], xs[i], p);
      if p(xs[i]) {
        ys := ys + [xs[i]];
      }
      i := i + 1;
    }
    assert xs[..|xs|] == xs;
  }

  /** A filter preserves the relative order of what it keeps. */
  lemma {:induction false} WhereIsSubsequence<T(!new)>(xs: seq<T>, p: T -> bool)
    ensures IsSubsequence(Where(xs, p), xs)
    decreases |xs|
  {
    if xs != [] {
      var init, last := xs[..|xs| - 1], xs[|xs| - 1];
      WhereIsSubsequence(init, p);
      var w := Where(init, p);
      if p(last) {
        assert Where(xs, p) == w + [last];
        assert (w + [last])[..|w|] == w;
      } else {
        assert Where(xs, p) == w;
        if w != [] {
          assert xs[..|xs| - 1] == init;
        }
      }
    }
  }

  /** A filter whose predicate holds everywhere keeps everything. */
  lemma {:induction false} WhereAll<T(!new)>(xs: seq<T>, p: T -> bool)
    requires forall x :: p(x)
    ensures Where(xs, p) == xs
    decreases |xs|
  {
    if xs != [] {
      var init, last := xs[..|xs| - 1], xs[|xs| - 1];
      assert xs == init + [last];
      WhereAll(init, p);
      WhereSnoc(init, last, p);
    }
  }

  /** Filters with pointwise-equal predicates give equal results. */
  lemma {:induction false} WhereSame<T(!new)>(xs: seq<T>, p: T -> bool, q: T -> bool)
    requires forall x :: p(x) == q(x)
    ensures Where(xs, p) == Where(xs, q)
    decreases |xs|
  {
    if xs != [] {
      var init, last := xs[..|xs| - 1], xs[|xs| - 1];
      assert xs == init + [last];
      WhereSame(init, p, q);
      WhereSnoc(init, last, p);
      WhereSnoc(init, last, q);
    }
  }

  /** Filtering a sequence extended by one element extends the filtered sequence by at most that element. */
  lemma WhereSnoc<T(!new)>(xs: seq<T>, x: T, p: T -> bool)
    ensures Where(xs + [x], p) == Where(xs, p) + (if p(x) then [x] else [])
  {
    assert (xs + [x])[..|xs|] == xs;
  }

  /** Filtering a sequence extended at the front by one element extends the filtered sequence at the front by at most that element. */
  lemma {:induction false} WhereCons<T(!new)>(x: T, xs: seq<T>, p: T -> bool)
    ensures Where([x] + xs, p) == (if p(x) then [x] else []) + Where(xs, p)
    decreases |xs|
  {
    if xs == [] {
      assert [x] + xs == [] + [x];
      WhereSnoc([], x, p);
    } else {
      var init, last := xs[..|xs| - 1], xs[|xs| - 1];
      assert xs == init + [last];
      assert [x] + xs == ([x] + init) + [last];
      WhereCons(x, init, p);
      WhereSnoc([x] + init, last, p);
      WhereSnoc(init, last, p);
    }
  }

  /** Filtering by `p` and then by `q` is filtering once by their conjunction `r`. */
  lemma {:induction false} WhereWhere<T(!new)>(xs: seq<T>, p: T -> bool, q: T -> bool, r: T -> bool)
    requires forall x :: r(x) == (p(x) && q(x))
    ensures Where(Where(xs, p), q) == Where(xs, r)
    decreases |xs|
  {
    if xs != [] {
      var init, last := xs[..|xs| - 1], xs[|xs| - 1];
      assert xs == init + [last];
      WhereWhere(init, p, q, r);
      WhereSnoc(init, last, p);
      WhereSnoc(init, last, r);
      var w := Where(init, p);
      if p(last) {
        WhereSnoc(w, last, q);
        assert Where(Where(xs, p), q) == Where(w, q) + (if q(last) then [last] else []);
      } else {
        assert Where(xs, p) == w;
        assert Where(xs, r) == Where(init, r);
      }
    }
  }

  /** Filtering an already filtered sequence by the same predicate changes nothing. */
  lemma WhereIdempotent<T(!new)>(xs: seq<T>, p: T -> bool)
    ensures Where(Where(xs, p), p) == Where(xs, p)
  {
    WhereWhere(xs, p, p, p);
  }
}
