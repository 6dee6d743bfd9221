/**
 * The array operations the application leans on — `filter`, `find`, `findIndex`,
 * `[...new Set(xs)]` and per-key counting — as functions on sequences with their
 * contracts proved once.
 */
module Seqs {
  import opened Wrappers

  /** `a` is an ordered subsequence of `b` (same relative order, elements dropped). */
  predicate IsSubseq<T(==)>(a: seq<T>, b: seq<T>)
    decreases |b|
  {
    if a == [] then true
    else if b == [] then false
    else if a[0] == b[0] then IsSubseq(a[1..], b[1..])
    else IsSubseq(a, b[1..])
  }

  /** Every element of a subsequence is an element of the whole. */
  lemma {:induction false} SubseqMembers<T>(a: seq<T>, b: seq<T>)
    requires IsSubseq(a, b)
    ensures forall x :: x in a ==> x in b
    decreases |b|
  {
    if a != [] && b != [] {
      if a[0] == b[0] {
        SubseqMembers(a[1..], b[1..]);
        assert a == [a[0]] + a[1..];
      } else {
        SubseqMembers(a, b[1..]);
      }
    }
  }

  /** `s.filter(p)`: exactly the elements satisfying `p`, in their original order. */
  function Filter<T(==,!new)>(s: seq<T>, p: T -> bool): (r: seq<T>)
    ensures |r| <= |s|
    ensures forall x :: x in r <==> x in s && p(x)
    ensures IsSubseq(r, s)
    ensures multiset(r) <= multiset(s)
    decreases |s|
  {
    if s == [] then []
    else
      var rest := Filter(s[1..], p);
      assert s == [s[0]] + s[1..];
      if p(s[0]) then [s[0]] + rest else rest
  }

  /** Filtering by `p` and by its negation splits a sequence in two. */
  lemma FilterPartition<T(!new)>(s: seq<T>, p: T -> bool, q: T -> bool)
    requires forall x :: q(x) == !p(x)
    ensures |Filter(s, p)| + |Filter(s, q)| == |s|
    ensures multiset(Filter(s, p)) + multiset(Filter(s, q)) == multiset(s)
  {
    forall y ensures (multiset(Filter(s, p)) + multiset(Filter(s, q)))[y] == multiset(s)[y] {
      FilterMultiplicity(s, p, y);
      FilterMultiplicity(s, q, y);
    }
    assert multiset(Filter(s, p)) + multiset(Filter(s, q)) == multiset(s);
    assert |multiset(Filter(s, p)) + multiset(Filter(s, q))| == |multiset(s)|;
  }

  /** Filtering keeps every copy of a passing element and no copy of a failing one. */
  lemma {:induction false} FilterMultiplicity<T(!new)>(s: seq<T>, p: T -> bool, y: T)
    ensures multiset(Filter(s, p))[y] == if p(y) then multiset(s)[y] else 0
    decreases |s|
  {
    if s != [] {
      FilterMultiplicity(s[1..], p, y);
      assert s == [s[0]] + s[1..];
      if p(s[0]) {
        assert Filter(s, p) == [s[0]] + Filter(s[1..], p);
      }
    }
  }

  /** Filtering leaves a sequence alone when every element passes. */
  lemma {:induction false} FilterAll<T(!new)>(s: seq<T>, p: T -> bool)
    requires forall x :: x in s ==> p(x)
    ensures Filter(s, p) == s
    decreases |s|
  {
    if s != [] {
      FilterAll(s[1..], p);
    }
  }

  /** Filtering leaves nothing when no element passes. */
  lemma {:induction false} FilterNone<T(!new)>(s: seq<T>, p: T -> bool)
    requires forall x :: x in s ==> !p(x)
    ensures Filter(s, p) == []
    decreases |s|
  {
    if s != [] {
      assert forall x :: x in s[1..] ==> x in s;
      FilterNone(s[1..], p);
    }
  }

  /** Filtering depends only on the predicate's values on the sequence's elements. */
  lemma {:induction false} FilterCongruent<T(!new)>(s: seq<T>, p: T -> bool, q: T -> bool)
    requires forall x :: x in s ==> p(x) == q(x)
    ensures Filter(s, p) == Filter(s, q)
    decreases |s|
  {
    if s != [] {
      assert forall x :: x in s[1..] ==> x in s;
      FilterCongruent(s[1..], p, q);
    }
  }

  /** A stronger predicate keeps no more elements than a weaker one. */
  lemma {:induction false} FilterNarrower<T(!new)>(s: seq<T>, p: T -> bool, q: T -> bool)
    requires forall x :: q(x) ==> p(x)
    ensures |Filter(s, q)| <= |Filter(s, p)|
    decreases |s|
  {
    if s != [] {
      FilterNarrower(s[1..], p, q);
    }
  }

  /** `s.findIndex(p)`: the first position whose element satisfies `p`, or -1. */
  function FirstIndex<T>(s: seq<T>, p: T -> bool): (i: int)
    ensures -1 <= i < |s|
    ensures i == -1 <==> forall j :: 0 <= j < |s| ==> !p(s[j])
    ensures i >= 0 ==> p(s[i]) && forall j :: 0 <= j < i ==> !p(s[j])
    decreases |s|
  {
    if s == [] then -1
    else if p(s[0]) then 0
    else
      var k := FirstIndex(s[1..], p);
      if k == -1 then -1 else k + 1
  }

  /** `s.find(p)`: the first element satisfying `p`, or none. */
  function Find<T>(s: seq<T>, p: T -> bool): (r: Option<T>)
    ensures r.None? <==> forall j :: 0 <= j < |s| ==> !p(s[j])
    ensures r.Some? ==> exists i :: 0 <= i < |s| && s[i] == r.value && p(s[i]) &&
                                    forall j :: 0 <= j < i ==> !p(s[j])
  {
    var i := FirstIndex(s, p);
    if i == -1 then None else Some(s[i])
  }

  /** No value occurs twice. */
  predicate NoDup<T(==)>(s: seq<T>) {
    forall i, j :: 0 <= i < j < |s| ==> s[i] != s[j]
  }

  /** Position of the first occurrence of `x` in `s` (|s| when absent). */
  function IndexOf<T(==)>(s: seq<T>, x: T): (i: nat)
    ensures i <= |s|
    ensures i < |s| <==> x in s
    ensures i < |s| ==> s[i] == x
    ensures forall j :: 0 <= j < i ==> s[j] != x
    decreases |s|
  {
    if s == [] then 0 else if s[0] == x then 0 else 1 + IndexOf(s[1..], x)
  }

  /**
   * `[...new Set(s)]`: the distinct values of `s`, each once, in order of first
   * occurrence — a `Set` keeps insertion order and ignores re-insertion.
   */
  function Dedup<T(==,!new)>(s: seq<T>): (r: seq<T>)
    ensures NoDup(r)
    ensures forall x :: x in r <==> x in s
    decreases |s|
  {
    if s == [] then []
    else
      var d := Dedup(s[..|s| - 1]);
      var x := s[|s| - 1];
      assert forall y :: y in s <==> y in s[..|s| - 1] || y == x by {
        assert s == s[..|s| - 1] + [x];
      }
      if x in d then d else d + [x]
  }

  /** The distinct values come out in order of their first occurrence in `s`. */
  lemma {:induction false} DedupFirstOccurrenceOrder<T(!new)>(s: seq<T>)
    ensures forall i, j :: 0 <= i < j < |Dedup(s)| ==>
              IndexOf(s, Dedup(s)[i]) < IndexOf(s, Dedup(s)[j])
    decreases |s|
  {
    if s != [] {
      var init := s[..|s| - 1];
      var x := s[|s| - 1];
      DedupFirstOccurrenceOrder(init);
      var d := Dedup(init);
      assert s == init + [x];
      forall y | y in init ensures IndexOf(s, y) == IndexOf(init, y) {
        IndexOfPrefix(init, [x], y);
      }
      if x !in d {
        assert x !in init;
        IndexOfPrefix(init, [x], x);
        assert IndexOf(s, x) >= |init|;
        forall i | 0 <= i < |d| ensures IndexOf(s, d[i]) < |init| {
          assert d[i] in init;
        }
      }
    }
  }

  lemma {:induction false} IndexOfPrefix<T>(a: seq<T>, b: seq<T>, y: T)
    ensures y in a ==> IndexOf(a + b, y) == IndexOf(a, y)
    ensures y !in a ==> IndexOf(a + b, y) == |a| + IndexOf(b, y)
    decreases |a|
  {
    if a != [] {
      assert (a + b)[1..] == a[1..] + b;
      IndexOfPrefix(a[1..], b, y);
    } else {
      assert a + b == b;
    }
  }

  /** Number of occurrences of `x` in `s`. */
  function Count<T(==)>(s: seq<T>, x: T): (n: nat)
    ensures n <= |s|
    ensures n == 0 <==> x !in s
    decreases |s|
  {
    if s == [] then 0 else (if s[0] == x then 1 else 0) + Count(s[1..], x)
  }

  lemma {:induction false} CountAppend<T>(a: seq<T>, b: seq<T>, x: T)
    ensures Count(a + b, x) == Count(a, x) + Count(b, x)
    decreases |a|
  {
    if a == [] {
      assert a + b == b;
    } else {
      assert (a + b)[1..] == a[1..] + b;
      CountAppend(a[1..], b, x);
    }
  }

  /** Sum of the occurrence counts in `s` of every key in `keys`. */
  function SumCounts<T(==)>(keys: seq<T>, s: seq<T>): nat
    decreases |keys|
  {
    if keys == [] then 0 else Count(s, keys[0]) + SumCounts(keys[1..], s)
  }

  lemma {:induction false} SumCountsAppendKeys<T>(a: seq<T>, b: seq<T>, s: seq<T>)
    ensures SumCounts(a + b, s) == SumCounts(a, s) + SumCounts(b, s)
    decreases |a|
  {
    if a == [] {
      assert a + b == b;
    } else {
      assert (a + b)[1..] == a[1..] + b;
      SumCountsAppendKeys(a[1..], b, s);
    }
  }

  /** Counting over a longer sequence adds one for each key equal to the new element. */
  lemma {:induction false} SumCountsExtend<T>(keys: seq<T>, s: seq<T>, x: T)
    requires NoDup(keys)
    ensures SumCounts(keys, s + [x]) == SumCounts(keys, s) + (if x in keys then 1 else 0)
    decreases |keys|
  {
    if keys != [] {
      CountAppend(s, [x], keys[0]);
      SumCountsExtend(keys[1..], s, x);
      assert x in keys <==> x == keys[0] || x in keys[1..];
    }
  }

  /** Over its distinct values, the occurrence counts of a sequence add up to its length. */
  lemma {:induction false} SumCountsDedup<T(!new)>(s: seq<T>)
    ensures SumCounts(Dedup(s), s) == |s|
    decreases |s|
  {
    if s != [] {
      var init := s[..|s| - 1];
      var x := s[|s| - 1];
      assert s == init + [x];
      SumCountsDedup(init);
      var d := Dedup(init);
      if x in d {
        SumCountsExtend(d, init, x);
      } else {
        SumCountsExtend(d, init, x);
        SumCountsAppendKeys(d, [x], s);
        CountAppend(init, [x], x);
        assert Count(init, x) == 0;
        assert SumCounts([x], s) == Count(s, x);
        assert SumCounts(d, s) == SumCounts(d, init);
      }
    }
  }

  /**
   * `order` and `m` are what a counting loop over `keys` has built so far: the keys in
   * first-insertion order and, per key seen, its number of occurrences.
   */
  ghost predicate Tallied<T(!new)>(keys: seq<T>, order: seq<T>, m: map<T, nat>) {
    && order == Dedup(keys)
    && (forall k :: k in m <==> k in keys)
    && (forall k :: k in m ==> m[k] == Count(keys, k))
  }

  /**
   * `m[k] = (m[k] || 0) + 1` on an object whose key order is insertion order: a new key
   * is appended to `order` and starts at 1, a known key is incremented.
   */
  method CountKey<T(==,!new)>(ghost keys: seq<T>, order: seq<T>, m: map<T, nat>, k: T)
    returns (order': seq<T>, m': map<T, nat>)
    requires Tallied(keys, order, m)
    ensures Tallied(keys + [k], order', m')
  {
    if k in m {
      TalliedKnownKey(keys, keys + [k], order, m, k);
      order', m' := order, m[k := m[k] + 1];
    } else {
      TalliedNewKey(keys, keys + [k], order, m, k);
      order', m' := order + [k], m[k := 1];
    }
  }

  /** A step of such a loop on a key not seen before: it is appended to the order and counted once. */
  lemma TalliedNewKey<T(!new)>(keys: seq<T>, next: seq<T>, order: seq<T>, m: map<T, nat>, k: T)
    requires Tallied(keys, order, m) && k !in m && next == keys + [k]
    ensures Tallied(next, order + [k], m[k := 1])
  {
    var s := next;
    assert s[..|s| - 1] == keys;
    forall x ensures Count(s, x) == Count(keys, x) + (if x == k then 1 else 0) {
      CountAppend(keys, [k], x);
    }
  }

  /** A step of such a loop on a key already seen: only its count grows. */
  lemma TalliedKnownKey<T(!new)>(keys: seq<T>, next: seq<T>, order: seq<T>, m: map<T, nat>, k: T)
    requires Tallied(keys, order, m) && k in m && next == keys + [k]
    ensures Tallied(next, order, m[k := m[k] + 1])
  {
    var s := next;
    assert s[..|s| - 1] == keys;
    forall x ensures Count(s, x) == Count(keys, x) + (if x == k then 1 else 0) {
      CountAppend(keys, [k], x);
    }
  }
}
