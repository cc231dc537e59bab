/** Order-preserving filtering of sequences, the shape of every `for x in ...: if ...` loop in the core. */
module Seqs {

  /** The elements of `s` that satisfy `p`, in their original order. */
  function Filter<T>(s: seq<T>, p: T -> bool): (r: seq<T>)
    ensures |r| <= |s|
  {
    if |s| == 0 then []
    else if p(s[0]) then [s[0]] + Filter(s[1..], p)
    else Filter(s[1..], p)
  }

  /**
   * `[f(x) for x in s if p(x)]`: one result per element that passes, in
   * order. The loops of the core that act on some of the entries of a listing
   * have this shape.
   */
  function MapFilter<T, U>(s: seq<T>, p: T -> bool, f: T -> U): (r: seq<U>)
    ensures |r| == |Filter(s, p)|
  {
    if |s| == 0 then []
    else if p(s[0]) then [f(s[0])] + MapFilter(s[1..], p, f)
    else MapFilter(s[1..], p, f)
  }

  /** The k-th result belongs to the k-th element that passes. */
  lemma {:induction false} MapFilterAt<T, U>(s: seq<T>, p: T -> bool, f: T -> U)
    ensures forall k :: 0 <= k < |MapFilter(s, p, f)| ==> MapFilter(s, p, f)[k] == f(Filter(s, p)[k])
  {
    if |s| > 0 {
      var r := MapFilter(s, p, f);
      var rest := MapFilter(s[1..], p, f);
      var src := Filter(s, p);
      var srcRest := Filter(s[1..], p);
      MapFilterAt(s[1..], p, f);
      if p(s[0]) {
        assert r == [f(s[0])] + rest;
        assert src == [s[0]] + srcRest;
        forall k | 1 <= k < |r|
          ensures r[k] == f(src[k])
        {
          assert r[k] == rest[k - 1] && src[k] == srcRest[k - 1];
        }
      } else {
        assert r == rest && src == srcRest;
      }
    }
  }

  /** Two elements that pass give their two results, in order. */
  lemma {:induction false} MapFilterPair<T, U>(a: T, b: T, p: T -> bool, f: T -> U)
    requires p(a) && p(b)
    ensures MapFilter([a, b], p, f) == [f(a), f(b)]
  {
    assert [a, b][1..] == [b] && [b][1..] == [];
    assert MapFilter([b], p, f) == [f(b)] + MapFilter([], p, f);
  }

  /** Filtering keeps exactly the elements that satisfy the condition. */
  lemma {:induction false} FilterMembers<T>(s: seq<T>, p: T -> bool)
    ensures forall k :: 0 <= k < |Filter(s, p)| ==> Filter(s, p)[k] in s && p(Filter(s, p)[k])
    ensures forall k :: 0 <= k < |s| && p(s[k]) ==> s[k] in Filter(s, p)
  {
    if |s| > 0 {
      FilterMembers(s[1..], p);
      var r := Filter(s, p);
      var rest := Filter(s[1..], p);
      if p(s[0]) {
        assert r == [s[0]] + rest;
        forall k | 0 < k < |r| ensures r[k] in s {
          assert r[k] == rest[k - 1];
          assert rest[k - 1] in s[1..];
        }
      } else {
        assert r == rest;
        forall k | 0 <= k < |r| ensures r[k] in s {
          assert r[k] in s[1..];
        }
      }
      forall k | 0 < k < |s| && p(s[k]) ensures s[k] in r {
        assert s[k] == s[1..][k - 1];
      }
    }
  }

  /** The k-th survivor is an element of `s` that satisfies `p`. */
  lemma {:induction false} FilterAt<T>(s: seq<T>, p: T -> bool, k: nat)
    requires k < |Filter(s, p)|
    ensures Filter(s, p)[k] in s && p(Filter(s, p)[k])
  {
    FilterMembers(s, p);
  }

  /** Two conditions that agree on every element of `s` filter it identically. */
  lemma {:induction false} FilterCongruent<T>(s: seq<T>, p: T -> bool, q: T -> bool)
    requires forall k :: 0 <= k < |s| ==> p(s[k]) == q(s[k])
    ensures Filter(s, p) == Filter(s, q)
  {
    if |s| > 0 {
      FilterCongruent(s[1..], p, q);
    }
  }

  /** A set that holds `a` and `b` and nothing else is `{a, b}`. */
  lemma {:induction false} PairSet<T>(s: set<T>, a: T, b: T)
    requires a in s && b in s && forall x :: x in s ==> x == a || x == b
    ensures s == {a, b}
  {
  }

  /** A one-element sequence whose element passes the test is its own filter. */
  lemma {:induction false} FilterSingleton<T>(x: T, p: T -> bool)
    requires p(x)
    ensures Filter([x], p) == [x]
  {
    assert [x][1..] == [];
  }
}
