/**
 * The customer details dialog (src/components/CustomerDetailsModal.tsx): a customer's visit
 * history, newest first, and their progress up the tier ladder. The date comparison of the
 * source (`new Date(date).getTime()`) is the parameter `dateKey`.
 */
module CustomerDetails {
  import opened Wrappers
  import opened ArrayOps
  import opened Ranking
  import opened SalonStore

  /** `v => v.customerId === id`. */
  function BookedUnder(id: string): Visit -> bool {
    (v: Visit) => v.customerId == id
  }

  /** The sort key `new Date(v.date).getTime()`. */
  function VisitTime(dateKey: string -> int): Visit -> int {
    (v: Visit) => dateKey(v.date)
  }

  /**
   * `customerVisits`: the visits booked under `id`, sorted newest first; visits at the same
   * time keep the order they have in the store.
   */
  function CustomerVisits(vs: seq<Visit>, id: string, dateKey: string -> int): (r: seq<Visit>)
    ensures forall v :: v in r <==> v in vs && v.customerId == id
    ensures multiset(r) == multiset(Filter(vs, BookedUnder(id)))
    ensures SortedDesc(r, VisitTime(dateKey))
    ensures forall d :: WithKey(r, VisitTime(dateKey), d) == WithKey(Filter(vs, BookedUnder(id)), VisitTime(dateKey), d)
  {
    var mine := Filter(vs, BookedUnder(id));
    var r := SortDesc(mine, VisitTime(dateKey));
    assert forall v :: v in r <==> v in multiset(mine);
    r
  }

  /** `getNextTier`: the tier after `t` on the ladder, none after Platinum. */
  function NextTier(t: Tier): (r: Option<Tier>)
    ensures r.None? <==> t == Platinum
    ensures r.Some? ==> r.value.Rank() == t.Rank() + 1
  {
    match t
    case Bronze => Some(Silver)
    case Silver => Some(Gold)
    case Gold => Some(Platinum)
    case Platinum => None
  }

  /** `tierThresholds`: the visit count shown as the goal of each tier; Platinum has none. */
  function Threshold(t: Tier): Option<int> {
    match t
    case Bronze => Some(5)
    case Silver => Some(10)
    case Gold => Some(20)
    case Platinum => None
  }

  /**
   * The thresholds agree with the store's tier rule: for each tier below Platinum the threshold
   * is the smallest visit count at which the rule awards the next tier.
   */
  lemma ThresholdIsNextTierEntry(t: Tier, v: int)
    requires t != Platinum
    ensures Threshold(t).Some?
    ensures TierFor(Threshold(t).value) == NextTier(t).value
    ensures v < Threshold(t).value ==> TierFor(v).Rank() < NextTier(t).value.Rank()
  {
  }

  /** The goal printed beside the progress bar: `tier === 'Bronze' ? 5 : tier === 'Silver' ? 10 : 20`. */
  function ProgressLabelGoal(t: Tier): int {
    if t == Bronze then 5 else if t == Silver then 10 else 20
  }

  /** Wherever the progress bar is shown (a next tier exists), its label names the threshold. */
  lemma ProgressLabelMatchesThreshold(t: Tier)
    requires NextTier(t).Some?
    ensures Threshold(t) == Some(ProgressLabelGoal(t))
  {
  }

  /** `progressToNextTier`: the percentage of the threshold reached, capped at 100. */
  function Progress(c: Customer): (r: real)
    ensures r <= 100.0
    ensures c.tier == Platinum ==> r == 100.0
    ensures c.tier != Platinum ==>
              (r == 100.0 <==> c.visits >= Threshold(c.tier).value) &&
              (r < 100.0 ==> r * (Threshold(c.tier).value as real) == c.visits as real * 100.0)
  {
    match Threshold(c.tier)
    case None => 100.0
    case Some(th) =>
      var p := (c.visits as real / th as real) * 100.0;
      if p < 100.0 then p else 100.0
  }

  /** "Visits to Reward": `nextRewardAt - visits`, which goes negative once the reward is due. */
  function VisitsToReward(c: Customer): (r: int)
    ensures r <= 0 <==> c.visits >= c.nextRewardAt
    ensures c.visits + r == c.nextRewardAt
  {
    c.nextRewardAt - c.visits
  }

  datatype Details = Details(
    customer: Customer,
    visits: seq<Visit>,
    recentVisits: seq<Visit>,
    nextTier: Option<Tier>,
    progress: real,
    visitsToReward: int)

  /**
   * What the dialog shows for `customerId`: nothing when the id is null or empty or names no
   * customer, otherwise the first customer with that id, their visits and at most five recent ones.
   */
  function Show(customerId: Option<string>, cs: seq<Customer>, vs: seq<Visit>, dateKey: string -> int)
      : (r: Option<Details>)
    ensures (customerId.None? || customerId.value == "") ==> r.None?
    ensures customerId.Some? && customerId.value != "" ==>
              (r.None? <==> forall i :: 0 <= i < |cs| ==> cs[i].id != customerId.value)
    ensures r.Some? ==> r.value.customer in cs && r.value.customer.id == customerId.value
    ensures r.Some? ==> Some(r.value.customer) == FindById(cs, customerId.value)
    ensures r.Some? ==> r.value.nextTier == NextTier(r.value.customer.tier)
    ensures r.Some? ==> r.value.progress == Progress(r.value.customer)
    ensures r.Some? ==> r.value.visitsToReward == VisitsToReward(r.value.customer)
    ensures r.Some? ==> r.value.visits == CustomerVisits(vs, customerId.value, dateKey)
    ensures r.Some? ==> r.value.recentVisits == Take(r.value.visits, 5) && |r.value.recentVisits| <= 5
  {
    if customerId.None? || customerId.value == "" then None
    else
      match FindById(cs, customerId.value)
      case None => None
      case Some(c) =>
        var mine := CustomerVisits(vs, customerId.value, dateKey);
        Some(Details(c, mine, Take(mine, 5), NextTier(c.tier), Progress(c), VisitsToReward(c)))
  }

  /** When several customers share the id, the dialog shows the first of them, as `find` does. */
  lemma ShowsFirstMatch(id: string, cs: seq<Customer>, vs: seq<Visit>, dateKey: string -> int, k: nat)
    requires id != "" && k < |cs| && cs[k].id == id
    requires forall j :: 0 <= j < k ==> cs[j].id != id
    ensures Show(Some(id), cs, vs, dateKey).Some?
    ensures Show(Some(id), cs, vs, dateKey).value.customer == cs[k]
  {
    FirstById(cs, id, k);
  }
}
