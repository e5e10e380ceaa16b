/** `Array.prototype.filter` and `map` over sequences, with the facts the
    console's counters and client-side filters rely on. */
module Seqs {

  /** `s.filter(p)`: the elements satisfying `p`, in their original order. */
  function Filter<T(!new)>(s: seq<T>, p: T -> bool): (r: seq<T>)
    ensures |r| <= |s|
    ensures forall k | 0 <= k < |r| :: p(r[k])
    ensures forall x :: x in r <==> x in s && p(x)
  {
    if s == [] then []
    else
      assert s == [s[0]] + s[1..];
      (if p(s[0]) then [s[0]] else []) + Filter(s[1..], p)
  }

  /** `s.map(f)`. */
  function Map<T, U>(s: seq<T>, f: T -> U): (r: seq<U>)
    ensures |r| == |s|
    ensures forall k | 0 <= k < |s| :: r[k] == f(s[k])
  {
    if s == [] then [] else [f(s[0])] + Map(s[1..], f)
  }

  /** `a` can be obtained from `b` by deleting elements: order is kept. */
  ghost predicate IsSubsequence<T>(a: seq<T>, b: seq<T>)
    decreases |b|
  {
    if a == [] then true
    else if b == [] then false
    else (a[0] == b[0] && IsSubsequence(a[1..], b[1..])) || IsSubsequence(a, b[1..])
  }

  /** Filtering a concatenation filters each part. */
  lemma {:induction false} FilterAppend<T(!new)>(a: seq<T>, b: seq<T>, p: T -> bool)
    ensures Filter(a + b, p) == Filter(a, p) + Filter(b, p)
  {
    if a != [] {
      assert (a + b)[1..] == a[1..] + b;
      FilterAppend(a[1..], b, p);
    } else {
      assert a + b == b;
    }
  }

  lemma {:induction false} MapAppend<T, U>(a: seq<T>, b: seq<T>, f: T -> U)
    ensures Map(a + b, f) == Map(a, f) + Map(b, f)
  {
    if a != [] {
      assert (a + b)[1..] == a[1..] + b;
      MapAppend(a[1..], b, f);
    } else {
      assert a + b == b;
    }
  }

  /** The result of a filter is an order-preserving subsequence of its input. */
  lemma {:induction false} FilterIsSubsequence<T(!new)>(s: seq<T>, p: T -> bool)
    ensures IsSubsequence(Filter(s, p), s)
  {
    if s != [] {
      var rest := Filter(s[1..], p);
      FilterIsSubsequence(s[1..], p);
      if p(s[0]) {
        assert Filter(s, p) == [s[0]] + rest;
        assert ([s[0]] + rest)[1..] == rest;
      } else {
        assert Filter(s, p) == rest;
        assert rest == [] || IsSubsequence(rest, s[1..]);
      }
    }
  }

  /** A filter by a stronger predicate picks a subsequence of the weaker one's. */
  lemma {:induction false} FilterStronger<T(!new)>(s: seq<T>, p: T -> bool, q: T -> bool)
    requires forall x | x in s :: p(x) ==> q(x)
    ensures IsSubsequence(Filter(s, p), Filter(s, q))
  {
    if s != [] {
      var fp, fq := Filter(s[1..], p), Filter(s[1..], q);
      assert forall x | x in s[1..] :: x in s;
      FilterStronger(s[1..], p, q);
      assert IsSubsequence(fp, fq);
      if p(s[0]) {
        assert q(s[0]);
        assert Filter(s, p) == [s[0]] + fp;
        assert Filter(s, q) == [s[0]] + fq;
        assert ([s[0]] + fp)[1..] == fp && ([s[0]] + fq)[1..] == fq;
      } else if q(s[0]) {
        assert Filter(s, p) == fp;
        assert Filter(s, q) == [s[0]] + fq;
        assert ([s[0]] + fq)[1..] == fq;
        assert fp == [] || IsSubsequence(fp, ([s[0]] + fq)[1..]);
      } else {
        assert Filter(s, p) == fp && Filter(s, q) == fq;
      }
    }
  }

  /** Whatever satisfies `p` everywhere passes a filter by `p` untouched. */
  lemma {:induction false} FilterKeepsAll<T(!new)>(s: seq<T>, p: T -> bool)
    requires forall k | 0 <= k < |s| :: p(s[k])
    ensures Filter(s, p) == s
  {
    if s != [] {
      FilterKeepsAll(s[1..], p);
    }
  }

  /** Nothing passes a filter by a predicate no element satisfies. */
  lemma {:induction false} FilterKeepsNone<T(!new)>(s: seq<T>, p: T -> bool)
    requires forall k | 0 <= k < |s| :: !p(s[k])
    ensures Filter(s, p) == []
  {
    if s != [] {
      FilterKeepsNone(s[1..], p);
    }
  }

  /** Filters by a predicate and by its negation split the input: their
      lengths add up to its length and their elements to its elements. */
  lemma {:induction false} FilterComplement<T(!new)>(s: seq<T>, p: T -> bool, q: T -> bool)
    requires forall x | x in s :: q(x) == !p(x)
    ensures |Filter(s, p)| + |Filter(s, q)| == |s|
    ensures multiset(Filter(s, p)) + multiset(Filter(s, q)) == multiset(s)
  {
    if s != [] {
      assert forall x | x in s[1..] :: x in s;
      FilterComplement(s[1..], p, q);
      assert s == [s[0]] + s[1..];
    }
  }

  /** Three mutually exclusive predicates select at most all the elements,
      and exactly all of them when every element satisfies one of them. */
  lemma {:induction false} FilterDisjoint3<T(!new)>(s: seq<T>, p: T -> bool, q: T -> bool, r: T -> bool)
    requires forall x | x in s :: !(p(x) && q(x)) && !(p(x) && r(x)) && !(q(x) && r(x))
    ensures |Filter(s, p)| + |Filter(s, q)| + |Filter(s, r)| <= |s|
    ensures (forall x | x in s :: p(x) || q(x) || r(x)) ==>
              |Filter(s, p)| + |Filter(s, q)| + |Filter(s, r)| == |s|
  {
    if s != [] {
      assert forall x | x in s[1..] :: x in s;
      FilterDisjoint3(s[1..], p, q, r);
    }
  }
}
