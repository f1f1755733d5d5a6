/**
 * The statistics the analytics page derives from the store (src/pages/Analytics.tsx):
 * revenue, average visit value, distinct customers, and tallies per tier, per service and per
 * barber with their top-five rankings. A tally (`Record<string, number>` built by `reduce`) is
 * an association list in key-insertion order, which is the order `Object.entries` reports.
 */
module Analytics {
  import opened ArrayOps
  import opened Ranking
  import opened SalonStore

  /** `visits.reduce((sum, v) => sum + v.amount, 0)`. */
  function TotalRevenue(vs: seq<Visit>): int {
    if vs == [] then 0 else TotalRevenue(vs[..|vs| - 1]) + vs[|vs| - 1].amount
  }

  /** Revenue adds up over any split of the visit list; in particular the empty list earns 0. */
  lemma {:induction false} RevenueAppend(a: seq<Visit>, b: seq<Visit>)
    ensures TotalRevenue(a + b) == TotalRevenue(a) + TotalRevenue(b)
    decreases |b|
  {
    if b == [] {
      assert a + b == a;
    } else {
      assert (a + b)[..|a + b| - 1] == a + b[..|b| - 1];
      RevenueAppend(a, b[..|b| - 1]);
    }
  }

  /** Non-negative amounts give non-negative revenue, at least as large as any single amount. */
  lemma {:induction false} RevenueBounds(vs: seq<Visit>)
    requires forall i :: 0 <= i < |vs| ==> vs[i].amount >= 0
    ensures TotalRevenue(vs) >= 0
    ensures forall i :: 0 <= i < |vs| ==> vs[i].amount <= TotalRevenue(vs)
  {
    if vs != [] {
      RevenueBounds(vs[..|vs| - 1]);
      assert forall i :: 0 <= i < |vs| - 1 ==> vs[..|vs| - 1][i] == vs[i];
    }
  }

  /** `averageVisitValue`: the mean amount, and 0 when there are no visits. */
  /** `avg` is the mean of `n` amounts summing to `total`: it times `n` gives back `total`. */
  predicate IsMean(avg: real, total: int, n: nat) {
    avg * (n as real) == total as real
  }

  function AverageVisitValue(vs: seq<Visit>): (r: real)
    ensures |vs| == 0 ==> r == 0.0
    ensures |vs| > 0 ==> IsMean(r, TotalRevenue(vs), |vs|)
  {
    if |vs| > 0 then TotalRevenue(vs) as real / |vs| as real else 0.0
  }

  /** `new Set(visits.map(v => v.customerId))`. */
  function CustomerIds(vs: seq<Visit>): set<string> {
    set i | 0 <= i < |vs| :: vs[i].customerId
  }

  /** There are never more distinct customers than visits. */
  lemma {:induction false} CustomerIdsBound(vs: seq<Visit>)
    ensures |CustomerIds(vs)| <= |vs|
  {
    if vs != [] {
      var init := vs[..|vs| - 1];
      CustomerIdsBound(init);
      assert CustomerIds(vs) == CustomerIds(init) + {vs[|vs| - 1].customerId} by {
        forall id | id in CustomerIds(vs) ensures id in CustomerIds(init) + {vs[|vs| - 1].customerId} {
          var i :| 0 <= i < |vs| && vs[i].customerId == id;
          if i < |vs| - 1 {
            assert init[i] == vs[i];
          }
        }
        forall id | id in CustomerIds(init) ensures id in CustomerIds(vs) {
          var i :| 0 <= i < |init| && init[i].customerId == id;
          assert vs[i] == init[i];
        }
      }
    }
  }

  /** `uniqueCustomers`: the number of distinct customer ids, never more than the visits. */
  function UniqueCustomers(vs: seq<Visit>): (n: nat)
    ensures n <= |vs|
  {
    CustomerIdsBound(vs);
    |CustomerIds(vs)|
  }

  // ---------------------------------------------------------------------------------------
  // Tallies

  /** Sum of the counts of a tally. */
  function Total<K>(t: seq<(K, int)>): int {
    if t == [] then 0 else Total(t[..|t| - 1]) + t[|t| - 1].1
  }

  function KeysOf<K>(t: seq<(K, int)>): set<K> {
    set i | 0 <= i < |t| :: t[i].0
  }

  /** Each key appears once. */
  ghost predicate DistinctKeys<K>(t: seq<(K, int)>) {
    forall i, j :: 0 <= i < j < |t| ==> t[i].0 != t[j].0
  }

  lemma {:induction false} TotalAppend<K>(a: seq<(K, int)>, b: seq<(K, int)>)
    ensures Total(a + b) == Total(a) + Total(b)
    decreases |b|
  {
    if b == [] {
      assert a + b == a;
    } else {
      assert (a + b)[..|a + b| - 1] == a + b[..|b| - 1];
      TotalAppend(a, b[..|b| - 1]);
    }
  }

  lemma ConsFacts<K>(e: (K, int), t: seq<(K, int)>)
    ensures Total([e] + t) == e.1 + Total(t)
    ensures KeysOf([e] + t) == {e.0} + KeysOf(t)
    ensures DistinctKeys([e] + t) <==> e.0 !in KeysOf(t) && DistinctKeys(t)
  {
    TotalAppend([e], t);
    var r := [e] + t;
    forall x | x in KeysOf(t) ensures x in KeysOf(r) {
      var i :| 0 <= i < |t| && t[i].0 == x;
      assert r[i + 1] == t[i];
    }
    assert r[0] == e;
    assert forall i :: 1 <= i < |r| ==> r[i] == t[i - 1];
    if DistinctKeys(r) {
      forall i, j | 0 <= i < j < |t| ensures t[i].0 != t[j].0 {
        assert r[i + 1] == t[i] && r[j + 1] == t[j];
      }
      forall i | 0 <= i < |t| ensures t[i].0 != e.0 {
        assert r[i + 1] == t[i];
      }
    }
  }

  /** `acc[k] || 0`: the count held under `k`, or 0 when the key is absent. */
  function Lookup<K(==)>(t: seq<(K, int)>, k: K): int {
    if t == [] then 0 else if t[0].0 == k then t[0].1 else Lookup(t[1..], k)
  }

  /** Looking up in a tally with a leading entry: that entry's value for its own key, else the rest's. */
  lemma LookupCons<K>(e: (K, int), t: seq<(K, int)>)
    ensures forall k :: Lookup([e] + t, k) == if e.0 == k then e.1 else Lookup(t, k)
  {
    assert ([e] + t)[0] == e && ([e] + t)[1..] == t;
  }

  /** `r` is `t` with `w` added to key `k`: the five facts `Bump` promises, bundled for its branch lemmas. */
  ghost predicate Bumped<K(!new)>(r: seq<(K, int)>, t: seq<(K, int)>, k: K, w: int) {
    && Total(r) == Total(t) + w
    && KeysOf(r) == KeysOf(t) + {k}
    && (DistinctKeys(t) ==> DistinctKeys(r))
    && Lookup(r, k) == Lookup(t, k) + w
    && (forall j :: j != k ==> Lookup(r, j) == Lookup(t, j))
  }

  /** `acc[k] = (acc[k] || 0) + w`: add `w` to key `k`, appending the key if it is new. */
  function Bump<K(==,!new)>(t: seq<(K, int)>, k: K, w: int): (r: seq<(K, int)>)
    ensures Total(r) == Total(t) + w
    ensures KeysOf(r) == KeysOf(t) + {k}
    ensures DistinctKeys(t) ==> DistinctKeys(r)
    ensures Lookup(r, k) == Lookup(t, k) + w
    ensures forall j :: j != k ==> Lookup(r, j) == Lookup(t, j)
  {
    if t == [] then
      BumpedEmpty(k, w);
      [(k, w)]
    else if t[0].0 == k then
      BumpedAtHead(t, w);
      [(k, t[0].1 + w)] + t[1..]
    else
      var rest := Bump(t[1..], k, w);
      BumpedBehindHead(t, k, w, rest);
      [t[0]] + rest
  }

  /** Bumping an empty tally creates the key with weight `w`. */
  lemma BumpedEmpty<K(!new)>(k: K, w: int)
    ensures Bumped([(k, w)], [], k, w)
  {
    assert [(k, w)] == [(k, w)] + [];
    ConsFacts((k, w), []);
    LookupCons((k, w), []);
  }

  /** Bumping the key of the first entry adds `w` to that entry in place. */
  lemma BumpedAtHead<K(!new)>(t: seq<(K, int)>, w: int)
    requires t != []
    ensures Bumped([(t[0].0, t[0].1 + w)] + t[1..], t, t[0].0, w)
  {
    assert t == [t[0]] + t[1..];
    ConsFacts(t[0], t[1..]);
    LookupCons(t[0], t[1..]);
    ConsFacts((t[0].0, t[0].1 + w), t[1..]);
    LookupCons((t[0].0, t[0].1 + w), t[1..]);
  }

  /** Bumping a key other than the first entry's bumps the rest and keeps the first entry. */
  lemma BumpedBehindHead<K(!new)>(t: seq<(K, int)>, k: K, w: int, rest: seq<(K, int)>)
    requires t != [] && t[0].0 != k
    requires Bumped(rest, t[1..], k, w)
    ensures Bumped([t[0]] + rest, t, k, w)
  {
    assert t == [t[0]] + t[1..];
    ConsFacts(t[0], t[1..]);
    LookupCons(t[0], t[1..]);
    ConsFacts(t[0], rest);
    LookupCons(t[0], rest);
  }

  /** The summed weight of the elements of `xs` whose key is `k`. */
  function WeightOf<T, K(==)>(xs: seq<T>, key: T -> K, weight: T -> int, k: K): int {
    if xs == [] then 0
    else WeightOf(xs[..|xs| - 1], key, weight, k) + (if key(xs[|xs| - 1]) == k then weight(xs[|xs| - 1]) else 0)
  }

  /**
   * `xs.reduce((acc, x) => { acc[key(x)] = (acc[key(x)] || 0) + weight(x); return acc }, {})`:
   * each key once, holding the summed weight of the elements with that key.
   */
  function TallyBy<T, K(==,!new)>(xs: seq<T>, key: T -> K, weight: T -> int): (t: seq<(K, int)>)
    ensures DistinctKeys(t)
    ensures forall k :: Lookup(t, k) == WeightOf(xs, key, weight, k)
  {
    if xs == [] then []
    else Bump(TallyBy(xs[..|xs| - 1], key, weight), key(xs[|xs| - 1]), weight(xs[|xs| - 1]))
  }

  /** `tierCounts`: how many customers hold each tier. */
  function TierCounts(cs: seq<Customer>): seq<(Tier, int)> {
    TallyBy(cs, TierOf, CountOne)
  }

  function TierOf(c: Customer): Tier { c.tier }
  function CountOne(c: Customer): int { 1 }

  /** `barberStats`: the revenue each barber brought in. */
  function BarberStats(vs: seq<Visit>): seq<(string, int)> {
    TallyBy(vs, BarberOf, AmountOf)
  }

  function BarberOf(v: Visit): string { v.barber }
  function AmountOf(v: Visit): int { v.amount }

  /** The inner `forEach`: count each listed service once more. */
  function BumpEach(t: seq<(string, int)>, services: seq<string>): (r: seq<(string, int)>)
    ensures Total(r) == Total(t) + |services|
    ensures DistinctKeys(t) ==> DistinctKeys(r)
    ensures forall s :: Lookup(r, s) == Lookup(t, s) + multiset(services)[s]
    decreases |services|
  {
    if services == [] then t
    else
      assert services == [services[0]] + services[1..];
      BumpEach(Bump(t, services[0], 1), services[1..])
  }

  /** How many times service `s` is listed over all the visits. */
  function Performed(vs: seq<Visit>, s: string): nat {
    if vs == [] then 0 else Performed(vs[..|vs| - 1], s) + multiset(vs[|vs| - 1].services)[s]
  }

  /** `serviceStats`: how often each service was performed. */
  function ServiceStats(vs: seq<Visit>): (t: seq<(string, int)>)
    ensures DistinctKeys(t)
    ensures forall s :: Lookup(t, s) == Performed(vs, s)
  {
    if vs == [] then [] else BumpEach(ServiceStats(vs[..|vs| - 1]), vs[|vs| - 1].services)
  }

  /** Number of service entries over all visits. */
  function ServiceEntries(vs: seq<Visit>): nat {
    if vs == [] then 0 else ServiceEntries(vs[..|vs| - 1]) + |vs[|vs| - 1].services|
  }

  /** The tier counts add up to the number of customers. */
  lemma {:induction false} TierCountsTotal(cs: seq<Customer>)
    ensures Total(TierCounts(cs)) == |cs|
  {
    if cs != [] {
      TierCountsTotal(cs[..|cs| - 1]);
    }
  }

  /** The barber revenues add up to the total revenue. */
  lemma {:induction false} BarberStatsTotal(vs: seq<Visit>)
    ensures Total(BarberStats(vs)) == TotalRevenue(vs)
  {
    if vs != [] {
      BarberStatsTotal(vs[..|vs| - 1]);
    }
  }

  /** The service counts add up to the number of service entries across all visits. */
  lemma {:induction false} ServiceStatsTotal(vs: seq<Visit>)
    ensures Total(ServiceStats(vs)) == ServiceEntries(vs)
  {
    if vs != [] {
      ServiceStatsTotal(vs[..|vs| - 1]);
    }
  }

  /** `c => c.tier === t`. */
  function HasTier(t: Tier): Customer -> bool {
    (c: Customer) => c.tier == t
  }

  /** `v => v.barber === b`. */
  function ServedBy(b: string): Visit -> bool {
    (v: Visit) => v.barber == b
  }

  /** The count shown for a tier (`tierCounts[t] || 0`) is the number of customers in it. */
  lemma TierCountsLookup(cs: seq<Customer>, t: Tier)
    ensures Lookup(TierCounts(cs), t) == |Filter(cs, HasTier(t))|
  {
    TierWeight(cs, t);
  }

  lemma {:induction false} TierWeight(cs: seq<Customer>, t: Tier)
    ensures WeightOf(cs, TierOf, CountOne, t) == |Filter(cs, HasTier(t))|
  {
    if cs != [] {
      var init, last := cs[..|cs| - 1], cs[|cs| - 1];
      TierWeight(init, t);
      FilterLast(cs, HasTier(t));
    }
  }

  /** The revenue credited to a barber is the revenue of the visits that barber served. */
  lemma BarberStatsLookup(vs: seq<Visit>, b: string)
    ensures Lookup(BarberStats(vs), b) == TotalRevenue(Filter(vs, ServedBy(b)))
  {
    BarberWeight(vs, b);
  }

  lemma {:induction false} BarberWeight(vs: seq<Visit>, b: string)
    ensures WeightOf(vs, BarberOf, AmountOf, b) == TotalRevenue(Filter(vs, ServedBy(b)))
  {
    if vs != [] {
      var init, last := vs[..|vs| - 1], vs[|vs| - 1];
      BarberWeight(init, b);
      FilterLast(vs, ServedBy(b));
      var kept := Filter(init, ServedBy(b));
      if last.barber == b {
        assert (kept + [last])[..|kept + [last]| - 1] == kept;
      } else {
        assert kept + [] == kept;
      }
    }
  }

  /** In a tally with distinct keys, each entry holds what a lookup of its key gives. */
  lemma {:induction false} LookupEntry<K>(t: seq<(K, int)>, e: (K, int))
    requires DistinctKeys(t) && e in t
    ensures Lookup(t, e.0) == e.1
  {
    if t[0] != e {
      assert e in t[1..];
      var i :| 0 <= i < |t[1..]| && t[1..][i] == e;
      assert t[i + 1] == e;
      assert t[0].0 != e.0;
      assert DistinctKeys(t[1..]) by {
        forall p, q | 0 <= p < q < |t[1..]| ensures t[1..][p].0 != t[1..][q].0 {
          assert t[1..][p] == t[p + 1] && t[1..][q] == t[q + 1];
        }
      }
      LookupEntry(t[1..], e);
    }
  }

  // ---------------------------------------------------------------------------------------
  // Rankings

  /** `Object.entries(stats).sort(([,a], [,b]) => b - a).slice(0, 5)`. */
  function TopFive<K>(t: seq<(K, int)>): seq<(K, int)> {
    Take(SortDesc(t, (e: (K, int)) => e.1), 5)
  }

  /**
   * A top-five list has at most five entries, by non-increasing value, each from the tally,
   * and no entry left out has a larger value than one listed.
   */
  lemma TopFiveRanked<K>(t: seq<(K, int)>)
    ensures |TopFive(t)| <= 5
    ensures SortedDesc(TopFive(t), (e: (K, int)) => e.1)
    ensures forall e :: e in TopFive(t) ==> e in t
    ensures |t| >= 5 ==> |TopFive(t)| == 5
    ensures forall e, d :: e in t && e !in TopFive(t) && d in TopFive(t) ==> d.1 >= e.1
  {
    var key := (e: (K, int)) => e.1;
    var sorted := SortDesc(t, key);
    var top := TopFive(t);
    assert top == sorted[..|top|];
    PrefixSorted(sorted, |top|, key);
    forall e | e in top ensures e in t {
      assert e in sorted;
      assert e in multiset(sorted);
    }
    forall e, d | e in t && e !in top && d in top ensures d.1 >= e.1 {
      assert e in multiset(sorted);
      var i :| 0 <= i < |sorted| && sorted[i] == e;
      var j :| 0 <= j < |top| && top[j] == d;
      assert sorted[j] == d;
      assert key(sorted[j]) >= key(sorted[i]);
    }
  }

  /**
   * Each top service is listed with the number of times it was performed, and each top barber
   * with the revenue of the visits that barber served.
   */
  lemma TopFiguresAreTallied(vs: seq<Visit>)
    ensures forall e :: e in TopFive(ServiceStats(vs)) ==> e.1 == Performed(vs, e.0)
    ensures forall e :: e in TopFive(BarberStats(vs)) ==> e.1 == TotalRevenue(Filter(vs, ServedBy(e.0)))
  {
    TopFiveRanked(ServiceStats(vs));
    TopFiveRanked(BarberStats(vs));
    forall e | e in TopFive(ServiceStats(vs)) ensures e.1 == Performed(vs, e.0) {
      LookupEntry(ServiceStats(vs), e);
    }
    forall e | e in TopFive(BarberStats(vs)) ensures e.1 == TotalRevenue(Filter(vs, ServedBy(e.0))) {
      LookupEntry(BarberStats(vs), e);
      BarberStatsLookup(vs, e.0);
    }
  }

  /** The analytics page's figures. */
  datatype Report = Report(
    totalRevenue: int,
    averageVisitValue: real,
    totalVisits: nat,
    uniqueCustomers: nat,
    tierCounts: seq<(Tier, int)>,
    topServices: seq<(string, int)>,
    topBarbers: seq<(string, int)>)

  function Compute(cs: seq<Customer>, vs: seq<Visit>): (r: Report)
    ensures r.uniqueCustomers <= r.totalVisits
    ensures |vs| == 0 ==> r.totalRevenue == 0 && r.averageVisitValue == 0.0
    ensures Total(r.tierCounts) == |cs|
    ensures |r.topServices| <= 5 && |r.topBarbers| <= 5
    ensures r.totalVisits == |vs| && r.totalRevenue == TotalRevenue(vs)
    ensures |vs| > 0 ==> IsMean(r.averageVisitValue, r.totalRevenue, r.totalVisits)
  {
    TierCountsTotal(cs);
    Report(TotalRevenue(vs), AverageVisitValue(vs), |vs|, UniqueCustomers(vs), TierCounts(cs),
           TopFive(ServiceStats(vs)), TopFive(BarberStats(vs)))
  }

  /** The per-tier counts and the top-five figures of a report are the tallies they claim to be. */
  lemma ComputeFigures(cs: seq<Customer>, vs: seq<Visit>)
    ensures forall t :: Lookup(Compute(cs, vs).tierCounts, t) == |Filter(cs, HasTier(t))|
    ensures forall e :: e in Compute(cs, vs).topServices ==> e.1 == Performed(vs, e.0)
    ensures forall e :: e in Compute(cs, vs).topBarbers ==> e.1 == TotalRevenue(Filter(vs, ServedBy(e.0)))
  {
    forall t ensures Lookup(TierCounts(cs), t) == |Filter(cs, HasTier(t))| {
      TierCountsLookup(cs, t);
    }
    TopFiguresAreTallied(vs);
  }
}
