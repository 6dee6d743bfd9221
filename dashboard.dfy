/**
 * The dashboard: the statistics it derives from every new product list (the total,
 * per-brand and per-coverstock-type counts ranked by count, the ten most recent
 * products) and the core count it derives from every new core list.
 *
 * Each subscription is a method of `DashboardComponent` receiving the newly published
 * list. The counting `forEach` is the same tally the product store keeps
 * (`BallStore.TallyBrandsAndTypes`); the `sort` with a count comparator is modelled
 * by a stable insertion sort, which yields the same order as any stable sort.
 */
module Dashboard {
  import opened Models
  import Seqs
  import BallStore

  /** One `{ key, count }` row of a ranking. */
  datatype KeyCount = KeyCount(key: string, count: nat)

  datatype DashboardStats = DashboardStats(
    totalProducts: nat,
    productsByBrand: seq<KeyCount>,
    productsByType: seq<KeyCount>,
    recentProducts: seq<Ball>
  )

  /** How many recent products the dashboard shows. */
  const RecentLimit := 10

  /** The sum of the counts of a ranking. */
  function TotalCount(s: seq<KeyCount>): nat
    decreases |s|
  {
    if s == [] then 0 else s[0].count + TotalCount(s[1..])
  }

  lemma {:induction false} TotalCountAppend(a: seq<KeyCount>, b: seq<KeyCount>)
    ensures TotalCount(a + b) == TotalCount(a) + TotalCount(b)
    decreases |a|
  {
    if a != [] {
      assert (a + b)[0] == a[0];
      assert (a + b)[1..] == a[1..] + b;
      TotalCountAppend(a[1..], b);
    } else {
      assert a + b == b;
    }
  }

  /** Counts never increase along the ranking. */
  predicate Descending(s: seq<KeyCount>) {
    forall i, j :: 0 <= i < j < |s| ==> s[i].count >= s[j].count
  }

  /** No key appears twice in the ranking. */
  predicate NoDupKeys(s: seq<KeyCount>) {
    forall i, j :: 0 <= i < j < |s| ==> s[i].key != s[j].key
  }

  /** The entries of a tally map in key insertion order (`Object.entries`). */
  function Entries(order: seq<string>, m: map<string, nat>): (r: seq<KeyCount>)
    requires forall k :: k in order ==> k in m
    ensures |r| == |order|
    ensures forall i :: 0 <= i < |order| ==> r[i] == KeyCount(order[i], m[order[i]])
    decreases |order|
  {
    if order == [] then [] else [KeyCount(order[0], m[order[0]])] + Entries(order[1..], m)
  }

  /**
   * Places `x` into a ranking after every entry whose count is at least `x`'s, so equal
   * counts keep their original relative order.
   */
  function Insert(sorted: seq<KeyCount>, x: KeyCount): (r: seq<KeyCount>)
    ensures |r| == |sorted| + 1 && x in r
    decreases |sorted|
  {
    if sorted == [] then [x]
    else if sorted[|sorted| - 1].count >= x.count then sorted + [x]
    else Insert(sorted[..|sorted| - 1], x) + [sorted[|sorted| - 1]]
  }

  /** The entries ranked by count, highest first, stable for equal counts. */
  function SortByCount(s: seq<KeyCount>): (r: seq<KeyCount>)
    ensures |r| == |s|
    decreases |s|
  {
    if s == [] then [] else Insert(SortByCount(s[..|s| - 1]), s[|s| - 1])
  }

  /** Inserting adds exactly `x`. */
  lemma {:induction false} InsertPermutes(sorted: seq<KeyCount>, x: KeyCount)
    ensures multiset(Insert(sorted, x)) == multiset(sorted) + multiset{x}
    decreases |sorted|
  {
    if sorted != [] && sorted[|sorted| - 1].count < x.count {
      var init, last := sorted[..|sorted| - 1], sorted[|sorted| - 1];
      assert sorted == init + [last];
      InsertPermutes(init, x);
    }
  }

  /** Inserting adds `x`'s count to the total. */
  lemma {:induction false} InsertTotal(sorted: seq<KeyCount>, x: KeyCount)
    ensures TotalCount(Insert(sorted, x)) == TotalCount(sorted) + x.count
    decreases |sorted|
  {
    if sorted != [] {
      var init, last := sorted[..|sorted| - 1], sorted[|sorted| - 1];
      assert sorted == init + [last];
      assert TotalCount([x]) == x.count && TotalCount([last]) == last.count;
      if last.count >= x.count {
        TotalCountAppend(sorted, [x]);
      } else {
        InsertTotal(init, x);
        TotalCountAppend(Insert(init, x), [last]);
        TotalCountAppend(init, [last]);
      }
    }
  }

  /** Inserting into a ranking gives a ranking. */
  lemma {:induction false} InsertDescending(sorted: seq<KeyCount>, x: KeyCount)
    requires Descending(sorted)
    ensures Descending(Insert(sorted, x))
    decreases |sorted|
  {
    if sorted != [] && sorted[|sorted| - 1].count < x.count {
      var init, last := sorted[..|sorted| - 1], sorted[|sorted| - 1];
      var r := Insert(init, x);
      assert Descending(init) by {
        forall i, j | 0 <= i < j < |init| ensures init[i].count >= init[j].count {
          assert sorted[i] == init[i] && sorted[j] == init[j];
        }
      }
      InsertDescending(init, x);
      InsertPermutes(init, x);
      assert Insert(sorted, x) == r + [last];
      forall i | 0 <= i < |r| ensures r[i].count >= last.count {
        assert r[i] in multiset(r);
        if r[i] != x {
          assert r[i] in init;
          var j :| 0 <= j < |init| && init[j] == r[i];
          assert sorted[j] == init[j];
        }
      }
    }
  }

  /** Appending an entry with a new key repeats no key. */
  lemma AppendNoDupKeys(r: seq<KeyCount>, y: KeyCount)
    requires NoDupKeys(r)
    requires forall i :: 0 <= i < |r| ==> r[i].key != y.key
    ensures NoDupKeys(r + [y])
  {
    forall i, j | 0 <= i < j < |r + [y]| ensures (r + [y])[i].key != (r + [y])[j].key {
      assert (r + [y])[i] == r[i];
    }
  }

  /** Inserting a new key into a ranking without repeated keys repeats none. */
  lemma {:induction false} InsertNoDupKeys(sorted: seq<KeyCount>, x: KeyCount)
    requires NoDupKeys(sorted)
    requires forall e :: e in sorted ==> e.key != x.key
    ensures NoDupKeys(Insert(sorted, x))
    decreases |sorted|
  {
    if sorted != [] {
      var init, last := sorted[..|sorted| - 1], sorted[|sorted| - 1];
      assert sorted == init + [last];
      assert last in sorted;
      if last.count >= x.count {
        assert Insert(sorted, x) == sorted + [x];
        forall i | 0 <= i < |sorted| ensures sorted[i].key != x.key {
          assert sorted[i] in sorted;
        }
        AppendNoDupKeys(sorted, x);
      } else {
        var r := Insert(init, x);
        assert NoDupKeys(init) by {
          forall i, j | 0 <= i < j < |init| ensures init[i].key != init[j].key {
            assert sorted[i] == init[i] && sorted[j] == init[j];
          }
        }
        InsertNoDupKeys(init, x);
        InsertPermutes(init, x);
        assert Insert(sorted, x) == r + [last];
        forall i | 0 <= i < |r| ensures r[i].key != last.key {
          assert r[i] in multiset(r);
          if r[i] != x {
            assert r[i] in init;
            var j :| 0 <= j < |init| && init[j] == r[i];
            assert sorted[j] == init[j];
          }
        }
        AppendNoDupKeys(r, last);
      }
    }
  }

  /** Sorting rearranges the entries (same multiset, same total) and ranks them by count. */
  lemma {:induction false} SortFacts(s: seq<KeyCount>)
    ensures multiset(SortByCount(s)) == multiset(s)
    ensures TotalCount(SortByCount(s)) == TotalCount(s)
    ensures Descending(SortByCount(s))
    decreases |s|
  {
    if s != [] {
      var init, x := s[..|s| - 1], s[|s| - 1];
      var sorted := SortByCount(init);
      assert s == init + [x];
      SortFacts(init);
      InsertPermutes(sorted, x);
      InsertTotal(sorted, x);
      InsertDescending(sorted, x);
      TotalCountAppend(init, [x]);
      assert TotalCount([x]) == x.count;
    }
  }

  /** Sorting keeps distinct keys distinct. */
  lemma {:induction false} SortNoDupKeys(s: seq<KeyCount>)
    requires NoDupKeys(s)
    ensures NoDupKeys(SortByCount(s))
    decreases |s|
  {
    if s != [] {
      var init, x := s[..|s| - 1], s[|s| - 1];
      var sorted := SortByCount(init);
      assert NoDupKeys(init) by {
        forall i, j | 0 <= i < j < |init| ensures init[i].key != init[j].key {
          assert s[i] == init[i] && s[j] == init[j];
        }
      }
      SortNoDupKeys(init);
      SortFacts(init);
      forall e | e in sorted ensures e.key != x.key {
        assert e in multiset(sorted);
        var j :| 0 <= j < |init| && init[j] == e;
        assert s[j] == e;
      }
      InsertNoDupKeys(sorted, x);
    }
  }

  /** The counts of the entries add up to the tallied occurrences of their keys. */
  lemma {:induction false} EntriesTotal(order: seq<string>, keys: seq<string>, m: map<string, nat>)
    requires forall k :: k in order ==> k in m && m[k] == Seqs.Count(keys, k)
    ensures TotalCount(Entries(order, m)) == Seqs.SumCounts(order, keys)
    decreases |order|
  {
    if order != [] {
      EntriesTotal(order[1..], keys, m);
    }
  }

  /** The keys of a ranking, in its order. */
  function KeysOf(r: seq<KeyCount>): (ks: seq<string>)
    ensures |ks| == |r|
    ensures forall i :: 0 <= i < |r| ==> ks[i] == r[i].key
    decreases |r|
  {
    if r == [] then [] else [r[0].key] + KeysOf(r[1..])
  }

  /** Two rearrangements of the same rows have the same keys. */
  lemma KeysOfPermuted(a: seq<KeyCount>, b: seq<KeyCount>)
    requires multiset(a) == multiset(b)
    ensures forall k :: k in KeysOf(a) <==> k in KeysOf(b)
  {
    forall k ensures k in KeysOf(a) ==> k in KeysOf(b) {
      if k in KeysOf(a) {
        var i :| 0 <= i < |a| && KeysOf(a)[i] == k;
        assert a[i] in multiset(b);
        var j :| 0 <= j < |b| && b[j] == a[i];
        assert KeysOf(b)[j] == k;
      }
    }
    forall k ensures k in KeysOf(b) ==> k in KeysOf(a) {
      if k in KeysOf(b) {
        var j :| 0 <= j < |b| && KeysOf(b)[j] == k;
        assert b[j] in multiset(a);
        var i :| 0 <= i < |a| && a[i] == b[j];
        assert KeysOf(a)[i] == k;
      }
    }
  }

  /**
   * What each ranking promises about the keys it was counted from: ranked by count,
   * each key once, each row's count the number of occurrences of its key, exactly the
   * keys that occur, and the counts adding up to the number of keys.
   */
  ghost predicate RankedCounts(r: seq<KeyCount>, keys: seq<string>) {
    && Descending(r)
    && NoDupKeys(r)
    && (forall e :: e in r ==> e.count == Seqs.Count(keys, e.key))
    && (forall k :: k in KeysOf(r) <==> k in keys)
    && TotalCount(r) == |keys|
  }

  /** The entries of distinct keys have distinct keys, in the same order. */
  lemma EntriesKeys(order: seq<string>, m: map<string, nat>)
    requires Seqs.NoDup(order)
    requires forall k :: k in order ==> k in m
    ensures KeysOf(Entries(order, m)) == order
    ensures NoDupKeys(Entries(order, m))
  {
    var es := Entries(order, m);
    assert KeysOf(es) == order;
    forall i, j | 0 <= i < j < |es| ensures es[i].key != es[j].key {
      assert order[i] != order[j];
    }
  }

  /** The entries of a complete tally of `keys`, before ranking. */
  lemma EntriesOfTally(keys: seq<string>, order: seq<string>, m: map<string, nat>)
    requires Seqs.Tallied(keys, order, m)
    ensures forall k :: k in order ==> k in m
    ensures KeysOf(Entries(order, m)) == order
    ensures NoDupKeys(Entries(order, m))
    ensures forall e :: e in Entries(order, m) ==> e.count == Seqs.Count(keys, e.key)
    ensures TotalCount(Entries(order, m)) == |keys|
  {
    EntriesKeys(order, m);
    EntriesTotal(order, keys, m);
    Seqs.SumCountsDedup(keys);
  }

  /** Ranking the entries of a complete tally of `keys` gives a ranking of `keys`. */
  lemma RankedFromTally(keys: seq<string>, order: seq<string>, m: map<string, nat>)
    requires Seqs.Tallied(keys, order, m)
    ensures forall k :: k in order ==> k in m
    ensures RankedCounts(SortByCount(Entries(order, m)), keys)
  {
    var es := Entries(order, m);
    var r := SortByCount(es);
    EntriesOfTally(keys, order, m);
    SortFacts(es);
    SortNoDupKeys(es);
    KeysOfPermuted(r, es);
    assert forall e :: e in r ==> e in multiset(es);
  }

  /** The statistics of one product list, as the `stats$` mapping computes them. */
  method ComputeStats(balls: seq<Ball>) returns (s: DashboardStats)
    ensures s.totalProducts == |balls|
    ensures RankedCounts(s.productsByBrand, BallStore.BrandKeys(balls))
    ensures RankedCounts(s.productsByType, BallStore.TypeKeys(balls))
    ensures forall k :: k in KeysOf(s.productsByBrand) <==> exists b :: b in balls && b.brand == k
    ensures forall k :: k in KeysOf(s.productsByType) <==> k != "" && exists b :: b in balls && b.coverstockType == k
    ensures TotalCount(s.productsByBrand) == |balls|
    ensures TotalCount(s.productsByType) <= |balls|
    ensures s.recentProducts == balls[..if |balls| < RecentLimit then |balls| else RecentLimit]
  {
    var t := BallStore.TallyBrandsAndTypes(balls);
    RankedFromTally(BallStore.BrandKeys(balls), t.brandOrder, t.byBrand);
    RankedFromTally(BallStore.TypeKeys(balls), t.typeOrder, t.byType);
    BallStore.BrandKeysMembers(balls);
    BallStore.TypeKeysMembers(balls);
    var byBrand := SortByCount(Entries(t.brandOrder, t.byBrand));
    var byType := SortByCount(Entries(t.typeOrder, t.byType));
    var recent := if |balls| < RecentLimit then |balls| else RecentLimit;
    s := DashboardStats(|balls|, byBrand, byType, balls[..recent]);
  }

  /** The dashboard's two derived values, refreshed on every publication. */
  class DashboardComponent {
    var stats: DashboardStats
    var coreCount: nat

    constructor(balls: seq<Ball>, cores: seq<Core>)
      ensures stats.totalProducts == |balls|
      ensures RankedCounts(stats.productsByBrand, BallStore.BrandKeys(balls))
      ensures RankedCounts(stats.productsByType, BallStore.TypeKeys(balls))
      ensures stats.recentProducts == balls[..if |balls| < RecentLimit then |balls| else RecentLimit]
      ensures coreCount == |cores|
    {
      var s := ComputeStats(balls);
      stats := s;
      coreCount := |cores|;
    }

    /** A new product list recomputes the statistics; the core count is untouched. */
    method OnBallsChanged(balls: seq<Ball>)
      modifies this
      ensures stats.totalProducts == |balls|
      ensures RankedCounts(stats.productsByBrand, BallStore.BrandKeys(balls))
      ensures RankedCounts(stats.productsByType, BallStore.TypeKeys(balls))
      ensures stats.recentProducts == balls[..if |balls| < RecentLimit then |balls| else RecentLimit]
      ensures coreCount == old(coreCount)
    {
      stats := ComputeStats(balls);
    }

    /** A new core list sets the core count to its length; the statistics are untouched. */
    method OnCoresChanged(cores: seq<Core>)
      modifies this
      ensures coreCount == |cores|
      ensures stats == old(stats)
    {
      coreCount := |cores|;
    }
  }
}
