/** Sequence operations that the store and the pages build on: `filter`,
    `find`, de-duplication through a `Set`, and counting. */
module Seqs {
  import opened Wrappers

  /** r can be obtained from s by deleting elements (order kept). */
  ghost predicate IsSubsequence<T>(r: seq<T>, s: seq<T>)
    decreases |s|
  {
    r == [] ||
    (s != [] && ((r[0] == s[0] && IsSubsequence(r[1..], s[1..])) || IsSubsequence(r, s[1..])))
  }

  ghost predicate Distinct<T>(s: seq<T>) {
    forall i, j :: 0 <= i < j < |s| ==> s[i] != s[j]
  }

  /** `Array.prototype.filter`. */
  function Filter<T(!new)>(s: seq<T>, p: T -> bool): (r: seq<T>)
    ensures |r| <= |s|
    ensures forall x :: x in r <==> x in s && p(x)
    ensures forall i :: 0 <= i < |r| ==> r[i] in s && p(r[i])
    ensures IsSubsequence(r, s)
    ensures (forall i :: 0 <= i < |s| ==> p(s[i])) ==> r == s
  {
    if s == [] then []
    else if p(s[0]) then [s[0]] + Filter(s[1..], p)
    else Filter(s[1..], p)
  }

  /** Filter keeps every copy of an element that passes, and no copy of
      one that does not. */
  lemma {:induction false} FilterCount<T(!new)>(s: seq<T>, p: T -> bool, x: T)
    ensures multiset(Filter(s, p))[x] == if p(x) then multiset(s)[x] else 0
  {
    if s != [] {
      assert s == [s[0]] + s[1..];
      FilterCount(s[1..], p, x);
    }
  }

  /** Filtering keeps a sequence free of repetitions. */
  lemma {:induction false} FilterDistinct<T(!new)>(s: seq<T>, p: T -> bool)
    requires Distinct(s)
    ensures Distinct(Filter(s, p))
  {
    if s != [] {
      assert Distinct(s[1..]);
      FilterDistinct(s[1..], p);
      assert s[0] !in s[1..];
    }
  }

  /** Filtering twice is filtering once by the conjunction. */
  lemma {:induction false} FilterFilter<T(!new)>(s: seq<T>, p: T -> bool, q: T -> bool, pq: T -> bool)
    requires forall x :: pq(x) == (p(x) && q(x))
    ensures Filter(Filter(s, p), q) == Filter(s, pq)
  {
    if s != [] {
      FilterFilter(s[1..], p, q, pq);
      if p(s[0]) {
        assert Filter(s, p) == [s[0]] + Filter(s[1..], p);
        assert Filter(s, p)[1..] == Filter(s[1..], p);
      }
    }
  }

  /** Filters that agree on the elements of s select the same elements. */
  lemma {:induction false} FilterCongruence<T(!new)>(s: seq<T>, p: T -> bool, q: T -> bool)
    requires forall i :: 0 <= i < |s| ==> p(s[i]) == q(s[i])
    ensures Filter(s, p) == Filter(s, q)
  {
    if s != [] {
      FilterCongruence(s[1..], p, q);
    }
  }

  /** Changing only elements that the filter rejects before and after does
      not change what the filter selects. */
  lemma {:induction false} FilterPointwise<T(!new)>(s: seq<T>, t: seq<T>, p: T -> bool)
    requires |s| == |t|
    requires forall i :: 0 <= i < |s| ==> p(s[i]) == p(t[i]) && (p(s[i]) ==> s[i] == t[i])
    ensures Filter(s, p) == Filter(t, p)
  {
    if s != [] {
      FilterPointwise(s[1..], t[1..], p);
    }
  }

  function MapSeq<T, U>(s: seq<T>, f: T -> U): (r: seq<U>)
    ensures |r| == |s|
    ensures forall i :: 0 <= i < |s| ==> r[i] == f(s[i])
  {
    if s == [] then [] else [f(s[0])] + MapSeq(s[1..], f)
  }

  /** The index of the first element satisfying p (`findIndex`), if any. */
  function FirstWhere<T>(s: seq<T>, p: T -> bool): (r: Option<nat>)
    ensures r.None? <==> forall i :: 0 <= i < |s| ==> !p(s[i])
    ensures r.Some? ==> r.value < |s| && p(s[r.value]) && forall j :: 0 <= j < r.value ==> !p(s[j])
  {
    if s == [] then None
    else if p(s[0]) then Some(0)
    else match FirstWhere(s[1..], p)
      case None => None
      case Some(i) => Some(i + 1)
  }

  /** `Array.prototype.find`: the first element satisfying p. */
  function Find<T(!new)>(s: seq<T>, p: T -> bool): (r: Option<T>)
    ensures r.None? <==> forall x :: x in s ==> !p(x)
    ensures r.Some? ==> r.value in s && p(r.value)
    ensures r.Some? ==> exists i :: 0 <= i < |s| && s[i] == r.value && forall j :: 0 <= j < i ==> !p(s[j])
  {
    match FirstWhere(s, p)
    case None => None
    case Some(i) => Some(s[i])
  }

  /** The position of the first occurrence of x in s. */
  function FirstIndex<T(==)>(s: seq<T>, x: T): (i: nat)
    requires x in s
    ensures i < |s| && s[i] == x && x !in s[..i]
  {
    if s[0] == x then 0 else 1 + FirstIndex(s[1..], x)
  }

  /** The elements of s not in `seen`, each once, in order of first
      appearance: what spreading a `Set` built from s yields. */
  function DedupFrom<T(==,!new)>(s: seq<T>, seen: set<T>): (r: seq<T>)
    ensures Distinct(r)
    ensures forall x :: x in r <==> x in s && x !in seen
    ensures forall i, j :: 0 <= i < j < |r| ==> FirstIndex(s, r[i]) < FirstIndex(s, r[j])
  {
    if s == [] then []
    else if s[0] in seen then DedupFrom(s[1..], seen)
    else [s[0]] + DedupFrom(s[1..], seen + {s[0]})
  }

  /** `[...new Set(s)]`. */
  function Dedup<T(==,!new)>(s: seq<T>): (r: seq<T>)
    ensures Distinct(r)
    ensures forall x :: x in r <==> x in s
    ensures forall i, j :: 0 <= i < j < |r| ==> FirstIndex(s, r[i]) < FirstIndex(s, r[j])
  {
    DedupFrom(s, {})
  }

  /** A sequence without repetitions has as many elements as its set. */
  lemma {:induction false} DistinctCardinality<T>(s: seq<T>)
    requires Distinct(s)
    ensures |set x | x in s| == |s|
  {
    if s != [] {
      DistinctCardinality(s[1..]);
      var tail := set x | x in s[1..];
      assert (set x | x in s) == tail + {s[0]};
      assert s[0] !in tail;
    }
  }

  /** Sum over d of the number of occurrences in s of each element. */
  function SumOccurrences<T(==)>(d: seq<T>, s: seq<T>): nat {
    if d == [] then 0 else multiset(s)[d[0]] + SumOccurrences(d[1..], s)
  }

  lemma {:induction false} SumOccurrencesCons<T>(d: seq<T>, a: T, t: seq<T>)
    ensures SumOccurrences(d, [a] + t) == SumOccurrences(d, t) + multiset(d)[a]
  {
    if d != [] {
      SumOccurrencesCons(d[1..], a, t);
      assert d == [d[0]] + d[1..];
      assert multiset([a] + t) == multiset{a} + multiset(t);
    }
  }

  lemma {:induction false} DistinctOccursOnce<T>(d: seq<T>, a: T)
    requires Distinct(d)
    ensures multiset(d)[a] == if a in d then 1 else 0
  {
    if d != [] {
      assert d == [d[0]] + d[1..];
      assert Distinct(d[1..]);
      DistinctOccursOnce(d[1..], a);
      if a == d[0] {
        assert a !in d[1..];
      }
    }
  }

  /** When d lists every element of s exactly once, the occurrence counts of
      d's elements in s add up to the length of s. */
  lemma {:induction false} SumOccurrencesPartition<T>(d: seq<T>, s: seq<T>)
    requires Distinct(d)
    requires forall x :: x in s ==> x in d
    ensures SumOccurrences(d, s) == |s|
  {
    if s == [] {
      SumOccurrencesEmpty(d);
    } else {
      assert s == [s[0]] + s[1..];
      SumOccurrencesCons(d, s[0], s[1..]);
      DistinctOccursOnce(d, s[0]);
      SumOccurrencesPartition(d, s[1..]);
    }
  }

  lemma {:induction false} SumOccurrencesEmpty<T>(d: seq<T>)
    ensures SumOccurrences(d, []) == 0
  {
    if d != [] {
      SumOccurrencesEmpty(d[1..]);
    }
  }
}
