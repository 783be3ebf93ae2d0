/** Sequence operations the store and the queries are built from, with their laws. */
module Seqs {

  /** The set of elements of s. */
  function Elems<T>(s: seq<T>): set<T>
  {
    set x | x in s
  }

  /** No element of s occurs twice. */
  ghost predicate Distinct<T>(s: seq<T>)
  {
    forall i, j | 0 <= i < j < |s| :: s[i] != s[j]
  }

  /** The elements of s that satisfy p, in their order in s (JavaScript's `filter`, or a `find` by equality). */
  function Filter<T>(s: seq<T>, p: T -> bool): (r: seq<T>)
    ensures |r| <= |s|
    ensures forall x :: x in r ==> x in s && p(x)
    ensures forall x :: x in s && p(x) ==> x in r
  {
    if s == [] then []
    else if p(s[0]) then [s[0]] + Filter(s[1..], p)
    else Filter(s[1..], p)
  }

  /** A filter depends only on the predicate's values on the elements it is given. */
  lemma {:induction false} FilterCongruent<T>(s: seq<T>, p: T -> bool, q: T -> bool)
    requires forall x :: x in s ==> p(x) == q(x)
    ensures Filter(s, p) == Filter(s, q)
  {
    if s != [] {
      assert forall x :: x in s[1..] ==> x in s;
      FilterCongruent(s[1..], p, q);
    }
  }

  /** A filter that every element passes is the identity. */
  lemma {:induction false} FilterKeepsAll<T>(s: seq<T>, p: T -> bool)
    requires forall x :: x in s ==> p(x)
    ensures Filter(s, p) == s
  {
    if s != [] {
      assert forall x :: x in s[1..] ==> x in s;
      FilterKeepsAll(s[1..], p);
      assert [s[0]] + s[1..] == s;
    }
  }

  lemma DistinctTail<T>(s: seq<T>)
    requires s != [] && Distinct(s)
    ensures Distinct(s[1..]) && s[0] !in s[1..]
  {
    forall j | 0 <= j < |s[1..]|
      ensures s[1..][j] != s[0]
    {
      assert s[1..][j] == s[j + 1];
    }
  }

  lemma DistinctCons<T>(a: T, r: seq<T>)
    requires a !in r && Distinct(r)
    ensures Distinct([a] + r)
  {
    forall i, j | 0 <= i < j < |[a] + r|
      ensures ([a] + r)[i] != ([a] + r)[j]
    {
      assert ([a] + r)[j] == r[j - 1];
      if i > 0 {
        assert ([a] + r)[i] == r[i - 1];
      }
    }
  }

  /** Filtering a sequence without repetitions yields one without repetitions. */
  lemma {:induction false} FilterDistinct<T>(s: seq<T>, p: T -> bool)
    requires Distinct(s)
    ensures Distinct(Filter(s, p))
  {
    if s != [] {
      DistinctTail(s);
      FilterDistinct(s[1..], p);
      if p(s[0]) {
        DistinctCons(s[0], Filter(s[1..], p));
      }
    }
  }

  /** A sequence without repetitions has as many elements as its set. */
  lemma {:induction false} DistinctCard<T>(s: seq<T>)
    requires Distinct(s)
    ensures |Elems(s)| == |s|
  {
    if s != [] {
      DistinctTail(s);
      assert Elems(s) == {s[0]} + Elems(s[1..]);
      DistinctCard(s[1..]);
    }
  }

  function SumLengths<T>(xss: seq<seq<T>>): nat
  {
    if xss == [] then 0 else |xss[0]| + SumLengths(xss[1..])
  }

  /** One level of flattening, as `[].concat.apply([], xss)`: as long as its parts together. */
  function Flatten<T>(xss: seq<seq<T>>): (r: seq<T>)
    ensures |r| == SumLengths(xss)
  {
    if xss == [] then [] else xss[0] + Flatten(xss[1..])
  }

  /** An element is in the flattened sequence exactly when it is in one of the parts. */
  lemma {:induction false} FlattenMember<T>(xss: seq<seq<T>>, x: T)
    ensures x in Flatten(xss) <==> exists i :: 0 <= i < |xss| && x in xss[i]
  {
    if xss != [] {
      FlattenMember(xss[1..], x);
      if x in Flatten(xss[1..]) {
        var i :| 0 <= i < |xss[1..]| && x in xss[1..][i];
        assert x in xss[i + 1];
      }
      if exists i :: 0 <= i < |xss| && x in xss[i] {
        var i :| 0 <= i < |xss| && x in xss[i];
        if i > 0 {
          assert x in xss[1..][i - 1];
        }
      }
    }
  }
}
