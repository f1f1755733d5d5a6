/**
 * The dashboard's figures (src/pages/Dashboard.tsx). Unlike the analytics page, the dashboard
 * sorts the store's own `customers` and `visits` arrays in place before slicing off the top five,
 * so rendering it reorders the shared state: the model sorts the store's sequences through an
 * array and writes the permuted contents back.
 */
module Dashboard {
  import opened Wrappers
  import opened ArrayOps
  import opened Ranking
  import opened SalonStore
  import opened Analytics

  datatype Figures = Figures(
    totalRevenue: int,
    averageVisitValue: real,
    todayVisits: nat,
    topCustomers: seq<Customer>,
    recentVisits: seq<Visit>,
    tierCounts: seq<(Tier, int)>)

  function SpentKey(): Customer -> int {
    (c: Customer) => c.totalSpent
  }

  function DateKey(dateKey: string -> int): Visit -> int {
    (v: Visit) => dateKey(v.date)
  }

  lemma RemoveAt<T>(s: seq<T>, k: nat)
    requires k < |s|
    ensures multiset(s[..k] + s[k + 1..]) == multiset(s) - multiset{s[k]}
  {
    assert s == s[..k] + [s[k]] + s[k + 1..];
  }

  /** Taking one visit out of the list takes its amount out of the revenue. */
  lemma {:induction false} RevenueRemoveAt(b: seq<Visit>, k: nat)
    requires k < |b|
    ensures TotalRevenue(b) == TotalRevenue(b[..k] + b[k + 1..]) + b[k].amount
    decreases |b|
  {
    var init := b[..|b| - 1];
    if k == |b| - 1 {
      assert b[..k] + b[k + 1..] == init;
    } else {
      RevenueRemoveAt(init, k);
      var rest := init[..k] + init[k + 1..];
      var removed := b[..k] + b[k + 1..];
      assert removed == rest + [b[|b| - 1]];
      assert removed[..|removed| - 1] == rest;
    }
  }

  /** Revenue does not depend on the order of the visits. */
  lemma {:induction false} RevenuePermutation(a: seq<Visit>, b: seq<Visit>)
    requires multiset(a) == multiset(b)
    ensures TotalRevenue(a) == TotalRevenue(b)
    decreases |a|
  {
    if a == [] {
      assert |b| == |multiset(b)| == 0;
    } else {
      var x := a[|a| - 1];
      assert x in multiset(b);
      var k :| 0 <= k < |b| && b[k] == x;
      RemoveAt(a, |a| - 1);
      RemoveAt(b, k);
      assert a[..|a| - 1] + a[|a|..] == a[..|a| - 1];
      RevenuePermutation(a[..|a| - 1], b[..k] + b[k + 1..]);
      RevenueRemoveAt(b, k);
    }
  }

  /** An invariant held by every customer survives any reordering. */
  lemma PermutationKeepsTiers(a: seq<Customer>, b: seq<Customer>)
    requires multiset(a) == multiset(b) && TiersConsistent(a)
    ensures TiersConsistent(b)
  {
    forall i | 0 <= i < |b| ensures b[i].tier == TierFor(b[i].visits) {
      assert b[i] in multiset(a);
    }
  }

  /** Sorts `s` by `key`, largest first, in an array, and returns the reordered contents. */
  method SortedCopy<T>(s: seq<T>, key: T -> int) returns (r: seq<T>)
    ensures multiset(r) == multiset(s)
    ensures SortedDesc(r, key)
    ensures forall v :: WithKey(r, key, v) == WithKey(s, key, v)
    ensures r == SortDesc(s, key)
  {
    var a := new T[|s|](i requires 0 <= i < |s| => s[i]);
    assert a[..] == s;
    SortDescInPlace(a, key);
    r := a[..];
  }

  /**
   * Rendering the dashboard: nothing while no salon is loaded; otherwise the figures, computed
   * after `customers` has been sorted by total spent and `visits` by date, newest first.
   * `dateKey` stands for `new Date(date).getTime()` and `isToday` for the comparison with today.
   */
  method Render(store: Store, dateKey: string -> int, isToday: string -> bool)
      returns (f: Option<Figures>)
    modifies store`customers, store`visits
    ensures store.salon.None? ==> f.None? && unchanged(store)
    ensures store.salon.Some? ==> f.Some?
    ensures multiset(store.customers) == multiset(old(store.customers))
    ensures multiset(store.visits) == multiset(old(store.visits))
    ensures store.salon.Some? ==> SortedDesc(store.customers, SpentKey())
    ensures store.salon.Some? ==> SortedDesc(store.visits, DateKey(dateKey))
    ensures store.salon.Some? ==> store.customers == SortDesc(old(store.customers), SpentKey())
    ensures store.salon.Some? ==> store.visits == SortDesc(old(store.visits), DateKey(dateKey))
    ensures store.salon.Some? ==> forall v :: WithKey(store.customers, SpentKey(), v) == WithKey(old(store.customers), SpentKey(), v)
    ensures f.Some? ==> f.value.topCustomers == Take(store.customers, 5)
    ensures f.Some? ==> f.value.recentVisits == Take(store.visits, 5)
    ensures f.Some? ==> f.value.totalRevenue == TotalRevenue(store.visits)
    ensures f.Some? ==> f.value.averageVisitValue == AverageVisitValue(store.visits)
    ensures f.Some? ==> f.value.todayVisits == |Filter(old(store.visits), (v: Visit) => isToday(v.date))|
    ensures f.Some? ==> Total(f.value.tierCounts) == |store.customers|
    ensures f.Some? ==> f.value.tierCounts == TierCounts(store.customers)
    ensures f.Some? ==> forall t :: Lookup(f.value.tierCounts, t) == |Filter(store.customers, HasTier(t))|
    ensures TiersConsistent(old(store.customers)) ==> TiersConsistent(store.customers)
  {
    if store.salon.None? {
      return None;
    }
    var visits := store.visits;
    var totalRevenue := TotalRevenue(visits);
    var averageVisitValue := AverageVisitValue(visits);
    var todayVisits := |Filter(visits, (v: Visit) => isToday(v.date))|;
    var sortedCustomers := SortedCopy(store.customers, SpentKey());
    if TiersConsistent(store.customers) {
      PermutationKeepsTiers(store.customers, sortedCustomers);
    }
    store.customers := sortedCustomers;
    var topCustomers := Take(sortedCustomers, 5);
    var sortedVisits := SortedCopy(visits, DateKey(dateKey));
    RevenuePermutation(visits, sortedVisits);
    store.visits := sortedVisits;
    var recentVisits := Take(sortedVisits, 5);
    var tierCounts := TierCounts(sortedCustomers);
    TierCountsTotal(sortedCustomers);
    forall t ensures Lookup(tierCounts, t) == |Filter(sortedCustomers, HasTier(t))| {
      TierCountsLookup(sortedCustomers, t);
    }
    f := Some(Figures(totalRevenue, averageVisitValue, todayVisits, topCustomers, recentVisits, tierCounts));
  }

  /** The top customers are at most five customers of the store, biggest spenders first. */
  lemma TopCustomersRanked(cs: seq<Customer>)
    requires SortedDesc(cs, SpentKey())
    ensures |Take(cs, 5)| <= 5
    ensures SortedDesc(Take(cs, 5), SpentKey())
    ensures forall c :: c in Take(cs, 5) ==> c in cs
    ensures forall c :: c in cs && c !in Take(cs, 5) ==>
              forall d :: d in Take(cs, 5) ==> d.totalSpent >= c.totalSpent
  {
    var top := Take(cs, 5);
    PrefixSorted(cs, |top|, SpentKey());
    forall c, d | c in cs && c !in top && d in top ensures d.totalSpent >= c.totalSpent {
      var i :| 0 <= i < |cs| && cs[i] == c;
      var j :| 0 <= j < |top| && top[j] == d;
      assert cs[j] == d;
      assert j < i;
    }
  }
}
