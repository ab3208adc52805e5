/**
 * `Array.prototype.filter` and the offset/limit paging of query results, over
 * sequences of any element type.
 */
module Sequences {

  function Min(a: int, b: int): int { if a < b then a else b }

  lemma AppendAssoc<T>(a: seq<T>, b: seq<T>, c: seq<T>)
    ensures a + (b + c) == a + b + c
  {
  }

  lemma HeadTail<T>(a: seq<T>)
    requires a != []
    ensures a == [a[0]] + a[1..]
  {
  }

  /** `xs.filter(keep)`: the elements that pass, in their order. */
  function Filter<T>(keep: T -> bool, xs: seq<T>): (r: seq<T>)
    ensures |r| <= |xs|
  {
    if xs == [] then []
    else Filter(keep, xs[..|xs| - 1]) + (if keep(xs[|xs| - 1]) then [xs[|xs| - 1]] else [])
  }

  /** An element survives the filter exactly when it was there and passes. */
  lemma {:induction false} FilterMembers<T>(keep: T -> bool, xs: seq<T>, x: T)
    ensures x in Filter(keep, xs) <==> x in xs && keep(x)
  {
    if xs != [] {
      var init := xs[..|xs| - 1];
      FilterMembers(keep, init, x);
      assert xs == init + [xs[|xs| - 1]];
    }
  }

  /** Filtering a concatenation filters each part. */
  lemma {:induction false} FilterAppend<T>(keep: T -> bool, a: seq<T>, b: seq<T>)
    ensures Filter(keep, a + b) == Filter(keep, a) + Filter(keep, b)
    decreases |b|
  {
    if b == [] {
      assert a + b == a;
    } else {
      var init, last := b[..|b| - 1], b[|b| - 1];
      assert (a + b)[..|a + b| - 1] == a + init;
      assert (a + b)[|a + b| - 1] == last;
      FilterAppend(keep, a, init);
    }
  }

  /** A filter that every element passes changes nothing. */
  lemma {:induction false} FilterAll<T>(keep: T -> bool, xs: seq<T>)
    requires forall i :: 0 <= i < |xs| ==> keep(xs[i])
    ensures Filter(keep, xs) == xs
  {
    if xs != [] {
      FilterAll(keep, xs[..|xs| - 1]);
      assert xs == xs[..|xs| - 1] + [xs[|xs| - 1]];
    }
  }

  /** `a` is `b` with some elements left out and the rest in their order, as the positions `idx` show. */
  ghost predicate SubsequenceAt<T>(a: seq<T>, b: seq<T>, idx: seq<nat>) {
    && |idx| == |a|
    && (forall k :: 0 <= k < |idx| ==> idx[k] < |b| && a[k] == b[idx[k]])
    && (forall k, l :: 0 <= k < l < |idx| ==> idx[k] < idx[l])
  }

  ghost predicate IsSubsequence<T>(a: seq<T>, b: seq<T>) {
    exists idx :: SubsequenceAt(a, b, idx)
  }

  /** One more element of `b`, kept or not, extends a subsequence and its positions. */
  lemma SubsequenceSnoc<T>(a: seq<T>, b: seq<T>, idx: seq<nat>, last: T, kept: bool)
    requires SubsequenceAt(a, b, idx)
    ensures SubsequenceAt(a + (if kept then [last] else []), b + [last], idx + (if kept then [|b|] else []))
  {
    var a', b', idx' := a + (if kept then [last] else []), b + [last], idx + (if kept then [|b|] else []);
    forall k | 0 <= k < |idx'|
      ensures idx'[k] < |b'| && a'[k] == b'[idx'[k]]
    {
      if k < |idx| {
        assert idx'[k] == idx[k] && a'[k] == a[k] && b'[idx[k]] == b[idx[k]];
      }
    }
  }

  /** The positions of the elements a filter keeps. */
  function KeptPositions<T>(keep: T -> bool, xs: seq<T>): (idx: seq<nat>)
    ensures SubsequenceAt(Filter(keep, xs), xs, idx)
  {
    if xs == [] then []
    else
      var init, last := xs[..|xs| - 1], xs[|xs| - 1];
      var rest := KeptPositions(keep, init);
      assert xs == init + [last];
      SubsequenceSnoc(Filter(keep, init), init, rest, last, keep(last));
      rest + if keep(last) then [|init|] else []
  }

  /** A filter keeps an order-preserving subsequence. */
  lemma FilterIsSubsequence<T>(keep: T -> bool, xs: seq<T>)
    ensures IsSubsequence(Filter(keep, xs), xs)
  {
    var idx := KeptPositions(keep, xs);
  }

  /** Two filters one after the other are one filter by both tests. */
  lemma {:induction false} FilterFilter<T>(first: T -> bool, second: T -> bool, both: T -> bool, xs: seq<T>)
    requires forall x :: both(x) == (first(x) && second(x))
    ensures Filter(second, Filter(first, xs)) == Filter(both, xs)
  {
    if xs != [] {
      var init, last := xs[..|xs| - 1], xs[|xs| - 1];
      FilterFilter(first, second, both, init);
      FilterAppend(second, Filter(first, init), if first(last) then [last] else []);
      if first(last) {
        assert Filter(second, [last]) == Filter(second, [last][..0]) + (if second(last) then [last] else []);
      }
    }
  }

  /** What a filter keeps and what its complement keeps make up the whole. */
  lemma {:induction false} FilterComplement<T>(keep: T -> bool, drop: T -> bool, xs: seq<T>)
    requires forall x :: drop(x) == !keep(x)
    ensures |Filter(keep, xs)| + |Filter(drop, xs)| == |xs|
  {
    if xs != [] {
      FilterComplement(keep, drop, xs[..|xs| - 1]);
    }
  }

  /** `offset(skip).limit(limit)` on an ordered result. */
  function Window<T>(xs: seq<T>, skip: nat, limit: nat): (w: seq<T>)
    ensures |w| <= limit
  {
    xs[Min(skip, |xs|)..Min(skip + limit, |xs|)]
  }

  /** The offset `(page - 1) * limit`, applied only when positive. */
  function Skip(page: int, limit: int): (n: nat)
    ensures n == 0 <==> (page - 1) * limit <= 0
    ensures n > 0 ==> n == (page - 1) * limit
  {
    var offset := (page - 1) * limit;
    if offset > 0 then offset else 0
  }

  /** Page `page` of an ordered result. */
  function PageWindow<T>(xs: seq<T>, page: int, limit: nat): seq<T> {
    Window(xs, Skip(page, limit), limit)
  }

  /** Pages 1 to n, each filtered, one after the other. */
  function FilteredPages<T>(keep: T -> bool, xs: seq<T>, n: nat, limit: nat): seq<T> {
    if n == 0 then [] else FilteredPages(keep, xs, n - 1, limit) + Filter(keep, PageWindow(xs, n, limit))
  }

  /** Page n starts where page n - 1 ends. */
  lemma PageBounds<T>(xs: seq<T>, n: nat, limit: nat)
    requires n > 0 && limit > 0
    ensures Min((n - 1) * limit, |xs|) <= Min(n * limit, |xs|)
    ensures PageWindow(xs, n, limit) == xs[Min((n - 1) * limit, |xs|)..Min(n * limit, |xs|)]
  {
    var m := (n - 1) * limit;
    PreviousPages(n, limit);
    assert Skip(n, limit) == m;
    assert PageWindow(xs, n, limit) == xs[Min(m, |xs|)..Min(m + limit, |xs|)];
  }

  /** The elements before page n are those of pages 1 to n - 1. */
  lemma PreviousPages(n: nat, limit: nat)
    requires n > 0
    ensures 0 <= (n - 1) * limit && n * limit == (n - 1) * limit + limit
  {
  }

  lemma SliceJoin<T>(xs: seq<T>, lo: nat, hi: nat)
    requires lo <= hi <= |xs|
    ensures xs[..hi] == xs[..lo] + xs[lo..hi]
  {
  }

  /** The first n filtered pages are the filter of the first n * limit elements: nothing is skipped or seen twice. */
  lemma {:induction false} FilteredPagesPrefix<T>(keep: T -> bool, xs: seq<T>, n: nat, limit: nat)
    requires limit > 0
    ensures FilteredPages(keep, xs, n, limit) == Filter(keep, xs[..Min(n * limit, |xs|)])
  {
    if n == 0 {
      assert xs[..0] == [];
    } else {
      var lo, hi := Min((n - 1) * limit, |xs|), Min(n * limit, |xs|);
      FilteredPagesPrefix(keep, xs, n - 1, limit);
      assert FilteredPages(keep, xs, n - 1, limit) == Filter(keep, xs[..lo]);
      PageBounds(xs, n, limit);
      SliceJoin(xs, lo, hi);
      FilterAppend(keep, xs[..lo], xs[lo..hi]);
    }
  }
}
