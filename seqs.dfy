/** `Array.prototype.filter` and what it promises: it keeps exactly the
    elements the predicate accepts, in their original order. */
module Seqs {

  /** `xs` can be obtained from `ys` by deleting elements: an order-preserving
      subsequence. */
  predicate Subsequence<T(==)>(xs: seq<T>, ys: seq<T>)
    decreases |ys|
  {
    || xs == []
    || (ys != [] && ((xs[0] == ys[0] && Subsequence(xs[1..], ys[1..])) || Subsequence(xs, ys[1..])))
  }

  /** `ys.filter(p)`. */
  function Filter<T>(ys: seq<T>, p: T -> bool): (r: seq<T>)
    ensures |r| <= |ys|
  {
    if ys == [] then []
    else if p(ys[0]) then [ys[0]] + Filter(ys[1..], p)
    else Filter(ys[1..], p)
  }

  /** The filter keeps exactly the elements the predicate accepts. */
  lemma {:induction false} FilterMembers<T>(ys: seq<T>, p: T -> bool)
    ensures forall k :: 0 <= k < |Filter(ys, p)| ==> Filter(ys, p)[k] in ys && p(Filter(ys, p)[k])
    ensures forall k :: 0 <= k < |ys| && p(ys[k]) ==> ys[k] in Filter(ys, p)
  {
    if ys != [] {
      FilterMembers(ys[1..], p);
      var r := Filter(ys, p);
      forall k | 0 <= k < |r| ensures r[k] in ys && p(r[k]) {
        var rest := Filter(ys[1..], p);
        if p(ys[0]) {
          if k > 0 {
            assert r[k] == rest[k - 1];
            assert rest[k - 1] in ys[1..];
          }
        } else {
          assert r[k] == rest[k];
          assert rest[k] in ys[1..];
        }
      }
      forall k | 0 <= k < |ys| && p(ys[k]) ensures ys[k] in r {
        if k > 0 {
          assert ys[k] == ys[1..][k - 1];
        }
      }
    }
  }

  /** The filter keeps every occurrence of an accepted value and none of a
      rejected one. */
  lemma {:induction false} FilterMultiset<T>(ys: seq<T>, p: T -> bool)
    ensures forall x :: multiset(Filter(ys, p))[x] == if p(x) then multiset(ys)[x] else 0
  {
    if ys != [] {
      FilterMultiset(ys[1..], p);
      assert ys == [ys[0]] + ys[1..];
      assert multiset(ys) == multiset([ys[0]]) + multiset(ys[1..]);
    }
  }

  /** The filtered list is an order-preserving subsequence of the input. */
  lemma {:induction false} FilterIsSubsequence<T>(ys: seq<T>, p: T -> bool)
    ensures Subsequence(Filter(ys, p), ys)
  {
    if ys != [] {
      FilterIsSubsequence(ys[1..], p);
      var r := Filter(ys, p);
      if p(ys[0]) {
        assert r[0] == ys[0] && r[1..] == Filter(ys[1..], p);
      }
    }
  }

  /** A predicate that accepts every element keeps the whole list. */
  lemma {:induction false} FilterKeepsAll<T>(ys: seq<T>, p: T -> bool)
    requires forall x :: x in ys ==> p(x)
    ensures Filter(ys, p) == ys
  {
    if ys != [] {
      FilterKeepsAll(ys[1..], p);
    }
  }

  /** Two predicates that agree on the list's elements filter it alike. */
  lemma {:induction false} FilterExtensional<T>(ys: seq<T>, p: T -> bool, q: T -> bool)
    requires forall x :: x in ys ==> p(x) == q(x)
    ensures Filter(ys, p) == Filter(ys, q)
  {
    if ys != [] {
      FilterExtensional(ys[1..], p, q);
    }
  }

  /** The filtered list is empty exactly when no element is accepted. */
  lemma FilterEmptyIff<T>(ys: seq<T>, p: T -> bool)
    ensures Filter(ys, p) == [] <==> forall k :: 0 <= k < |ys| ==> !p(ys[k])
  {
    FilterMembers(ys, p);
    var r := Filter(ys, p);
    if r != [] {
      assert r[0] in ys && p(r[0]);
    }
  }
}
