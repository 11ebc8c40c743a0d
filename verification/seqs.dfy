/** Order-preserving selection over a sequence: what a SQL `WHERE` clause
    does to a table read in insertion order. Every query of the service is
    such a selection followed by a fold. */
module Seqs {

  /** The elements of `s` that satisfy `p`. That each keeps its number of
      occurrences is `FilterMultiplicity`; that they keep their original
      order follows from `FilterAppend`. */
  function Filter<T(!new)>(s: seq<T>, p: T -> bool): (r: seq<T>)
    ensures |r| <= |s|
    ensures forall x :: x in r <==> x in s && p(x)
    ensures multiset(r) <= multiset(s)
  {
    if s == [] then []
    else
      assert s == [s[0]] + s[1..];
      (if p(s[0]) then [s[0]] else []) + Filter(s[1..], p)
  }

  /** An element satisfying `p` occurs in the selection exactly as often as
      in `s`; any other element does not occur at all. */
  lemma {:induction false} FilterMultiplicity<T(!new)>(s: seq<T>, p: T -> bool)
    ensures forall x :: multiset(Filter(s, p))[x] == if p(x) then multiset(s)[x] else 0
  {
    if s != [] {
      FilterMultiplicity(s[1..], p);
      assert s == [s[0]] + s[1..];
    }
  }

  /** Selection distributes over concatenation: a single pass over `a + b`
      is a pass over `a` followed by a pass over `b`. */
  lemma {:induction false} FilterAppend<T(!new)>(a: seq<T>, b: seq<T>, p: T -> bool)
    ensures Filter(a + b, p) == Filter(a, p) + Filter(b, p)
  {
    if a == [] {
      assert a + b == b;
    } else {
      assert (a + b)[0] == a[0];
      assert (a + b)[1..] == a[1..] + b;
      FilterAppend(a[1..], b, p);
    }
  }

  /** Selecting by `p` and by its negation splits `s` into two parts that
      together account for every element exactly once. */
  lemma {:induction false} FilterPartition<T(!new)>(s: seq<T>, p: T -> bool, q: T -> bool)
    requires forall x :: q(x) == !p(x)
    ensures |Filter(s, p)| + |Filter(s, q)| == |s|
  {
    if s != [] {
      FilterPartition(s[1..], p, q);
    }
  }
}
