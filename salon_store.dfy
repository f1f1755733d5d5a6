/**
 * The salon loyalty store (src/contexts/SalonContext.tsx): the customers and visits of the
 * signed-in salon, the tier rule and the points rule. Ids and timestamps that the source reads
 * from the clock are parameters; toasts are not modelled.
 */
module SalonStore {
  import opened Wrappers
  import opened ArrayOps
  import SessionStore

  datatype Tier = Bronze | Silver | Gold | Platinum {
    /** Position in the ladder Bronze < Silver < Gold < Platinum. */
    function Rank(): nat {
      match this
      case Bronze => 0
      case Silver => 1
      case Gold => 2
      case Platinum => 3
    }
  }

  datatype Customer = Customer(
    id: string,
    phone: string,
    name: string,
    email: Option<string>,
    visits: int,
    totalSpent: int,
    lastVisit: string,
    joinDate: string,
    tier: Tier,
    points: int,
    favoriteServices: seq<string>,
    preferredBarber: Option<string>,
    nextRewardAt: int)

  /** What `addCustomer` takes: a customer without the fields the store assigns. */
  datatype CustomerDraft = CustomerDraft(
    phone: string,
    name: string,
    email: Option<string>,
    lastVisit: string,
    favoriteServices: seq<string>,
    preferredBarber: Option<string>)

  /** `Partial<Customer>`: a field is overwritten exactly when the patch supplies it. */
  datatype CustomerPatch = CustomerPatch(
    id: Option<string>,
    phone: Option<string>,
    name: Option<string>,
    email: Option<Option<string>>,
    visits: Option<int>,
    totalSpent: Option<int>,
    lastVisit: Option<string>,
    joinDate: Option<string>,
    tier: Option<Tier>,
    points: Option<int>,
    favoriteServices: Option<seq<string>>,
    preferredBarber: Option<Option<string>>,
    nextRewardAt: Option<int>)

  datatype Visit = Visit(
    id: string,
    customerId: string,
    customerName: string,
    customerPhone: string,
    date: string,
    services: seq<string>,
    amount: int,
    barber: string,
    pointsEarned: int,
    rewardUsed: Option<string>)

  /** What `addVisit` takes: a visit without its id. */
  datatype VisitDraft = VisitDraft(
    customerId: string,
    customerName: string,
    customerPhone: string,
    date: string,
    services: seq<string>,
    amount: int,
    barber: string,
    pointsEarned: int,
    rewardUsed: Option<string>)

  /** The salon's configuration; its roll-up counters are set once and never recomputed. */
  datatype Salon = Salon(
    id: string,
    name: string,
    phone: string,
    address: string,
    services: seq<string>,
    barbers: seq<string>,
    subscription: SessionStore.Plan,
    subscriptionExpiry: string,
    totalCustomers: int,
    totalRevenue: int,
    averageVisitValue: real,
    retentionRate: real)

  // ---------------------------------------------------------------------------------------
  // The two business rules

  /** `getCustomerTier`: the loyalty tier earned by a visit count. */
  function TierFor(visits: int): Tier {
    if visits >= 20 then Platinum
    else if visits >= 10 then Gold
    else if visits >= 5 then Silver
    else Bronze
  }

  /** The tier bands: below 5 Bronze, 5 to 9 Silver, 10 to 19 Gold, 20 and up Platinum. */
  lemma TierBands(visits: int)
    ensures TierFor(visits) == Bronze <==> visits < 5
    ensures TierFor(visits) == Silver <==> 5 <= visits < 10
    ensures TierFor(visits) == Gold <==> 10 <= visits < 20
    ensures TierFor(visits) == Platinum <==> 20 <= visits
  {
  }

  /** More visits never earn a lower tier. */
  lemma TierMonotone(v: int, w: int)
    requires v <= w
    ensures TierFor(v).Rank() <= TierFor(w).Rank()
  {
  }

  /** `calculatePoints`: one point per 10 currency units, rounded down (`Math.floor`). */
  function CalculatePoints(amount: int): (p: int)
    ensures 10 * p <= amount < 10 * p + 10
  {
    amount / 10  // the divisor is positive, so Dafny's division rounds down like Math.floor
  }

  /** Points never go negative for a non-negative amount and grow with the amount. */
  lemma PointsMonotone(a: int, b: int)
    requires a <= b
    ensures CalculatePoints(a) <= CalculatePoints(b)
  {
    var pa, pb := CalculatePoints(a), CalculatePoints(b);
    assert 10 * pa <= a <= b < 10 * pb + 10;
  }

  // ---------------------------------------------------------------------------------------
  // Invariants the store is meant to keep

  /** Every customer's tier is the tier rule applied to its visit count. */
  ghost predicate TiersConsistent(cs: seq<Customer>) {
    forall i :: 0 <= i < |cs| ==> cs[i].tier == TierFor(cs[i].visits)
  }

  /** No two customers share an id. */
  ghost predicate UniqueIds(cs: seq<Customer>) {
    forall i, j :: 0 <= i < j < |cs| ==> cs[i].id != cs[j].id
  }

  // ---------------------------------------------------------------------------------------
  // Lookups

  /** `getCustomerByPhone`: the first customer in list order with exactly this phone. */
  function FindByPhone(cs: seq<Customer>, phone: string): (r: Option<Customer>)
    ensures r.None? <==> forall i :: 0 <= i < |cs| ==> cs[i].phone != phone
    ensures r.Some? ==> r.value in cs && r.value.phone == phone
  {
    Find(cs, (c: Customer) => c.phone == phone)
  }

  /** Of several customers sharing a phone, the lookup returns the earliest. */
  lemma FirstByPhone(cs: seq<Customer>, phone: string, k: nat)
    requires k < |cs| && cs[k].phone == phone
    requires forall j :: 0 <= j < k ==> cs[j].phone != phone
    ensures FindByPhone(cs, phone) == Some(cs[k])
  {
    FindFirst(cs, (c: Customer) => c.phone == phone, k);
  }

  /** `customers.find(c => c.id === id)`: the first customer in list order with this id. */
  function FindById(cs: seq<Customer>, id: string): (r: Option<Customer>)
    ensures r.None? <==> forall i :: 0 <= i < |cs| ==> cs[i].id != id
    ensures r.Some? ==> r.value in cs && r.value.id == id
  {
    Find(cs, (c: Customer) => c.id == id)
  }

  // ---------------------------------------------------------------------------------------
  // State transitions, as functions of the old customer list

  /** The record `addCustomer` appends: the supplied fields plus the store's fixed defaults. */
  function NewCustomer(d: CustomerDraft, id: string, joinDate: string): Customer {
    Customer(id, d.phone, d.name, d.email, 0, 0, d.lastVisit, joinDate, Bronze, 0,
             d.favoriteServices, d.preferredBarber, 5)
  }

  /** A freshly added customer starts at zero with the tier the rule gives zero visits. */
  lemma NewCustomerStartsAtZero(d: CustomerDraft, id: string, joinDate: string)
    ensures var c := NewCustomer(d, id, joinDate);
      c.visits == 0 && c.totalSpent == 0 && c.points == 0 && c.nextRewardAt == 5 &&
      c.tier == Bronze && c.tier == TierFor(c.visits)
  {
  }

  /** `{ ...customer, ...updates }`. */
  function Merge(c: Customer, p: CustomerPatch): Customer {
    Customer(p.id.GetOr(c.id), p.phone.GetOr(c.phone), p.name.GetOr(c.name),
             p.email.GetOr(c.email), p.visits.GetOr(c.visits), p.totalSpent.GetOr(c.totalSpent),
             p.lastVisit.GetOr(c.lastVisit), p.joinDate.GetOr(c.joinDate), p.tier.GetOr(c.tier),
             p.points.GetOr(c.points), p.favoriteServices.GetOr(c.favoriteServices),
             p.preferredBarber.GetOr(c.preferredBarber), p.nextRewardAt.GetOr(c.nextRewardAt))
  }

  /** `updateCustomer`'s `prev.map(...)`: every record with this id is merged with the patch. */
  function PatchWhereId(cs: seq<Customer>, id: string, p: CustomerPatch): (r: seq<Customer>)
    ensures |r| == |cs|
    ensures forall i :: 0 <= i < |cs| && cs[i].id == id ==> r[i] == Merge(cs[i], p)
    ensures forall i :: 0 <= i < |cs| && cs[i].id != id ==> r[i] == cs[i]
  {
    if cs == [] then []
    else [if cs[0].id == id then Merge(cs[0], p) else cs[0]] + PatchWhereId(cs[1..], id, p)
  }

  /** The patch `addVisit` applies to the customer `c` it found. */
  function RollupPatch(c: Customer, d: VisitDraft): CustomerPatch {
    CustomerPatch(None, None, None, None, Some(c.visits + 1), Some(c.totalSpent + d.amount),
                  Some(d.date), None, Some(TierFor(c.visits + 1)), Some(c.points + d.pointsEarned),
                  None, None, None)
  }

  /**
   * The customer list `cs` after `addVisit(d)` when the closure captured the list `seen`: the
   * customer is looked up in `seen`, and the patch built from that record is merged into every
   * record of the current list `cs` with its id. Nothing changes when `seen` has no such id.
   */
  function RecordVisitSeen(seen: seq<Customer>, cs: seq<Customer>, d: VisitDraft): seq<Customer> {
    match FindById(seen, d.customerId)
    case None => cs
    case Some(c) => PatchWhereId(cs, c.id, RollupPatch(c, d))
  }

  /** The customer list after `addVisit(d)` when the captured list is the current one. */
  function RecordVisit(cs: seq<Customer>, d: VisitDraft): seq<Customer> {
    RecordVisitSeen(cs, cs, d)
  }

  /** `{ ...visitData, id }`. */
  function Stamp(d: VisitDraft, id: string): Visit {
    Visit(id, d.customerId, d.customerName, d.customerPhone, d.date, d.services, d.amount,
          d.barber, d.pointsEarned, d.rewardUsed)
  }

  // ---------------------------------------------------------------------------------------
  // What the transitions promise

  /** An orphan visit (no customer has its id) leaves every customer as it was. */
  lemma RecordVisitOrphan(cs: seq<Customer>, d: VisitDraft)
    requires forall i :: 0 <= i < |cs| ==> cs[i].id != d.customerId
    ensures RecordVisit(cs, d) == cs
  {
  }

  /**
   * The customer `c` after `addVisit` rolls visit `d` into it: one more visit, the amount added
   * to the spend, the caller's points added, the tier for the new count, the visit date.
   */
  function RolledUp(c: Customer, d: VisitDraft): Customer {
    c.(visits := c.visits + 1, totalSpent := c.totalSpent + d.amount, points := c.points + d.pointsEarned,
       tier := TierFor(c.visits + 1), lastVisit := d.date)
  }

  /** Patching a customer with its roll-up patch changes exactly those five fields. */
  lemma MergeRollup(c: Customer, d: VisitDraft)
    ensures Merge(c, RollupPatch(c, d)) == RolledUp(c, d)
  {
  }

  /**
   * When the visit's customer is found at position `k` (the first with that id), that record
   * is rolled up and records with any other id are untouched.
   */
  lemma {:induction false} RecordVisitRollsUp(cs: seq<Customer>, d: VisitDraft, k: nat)
    requires k < |cs| && cs[k].id == d.customerId
    requires forall j :: 0 <= j < k ==> cs[j].id != d.customerId
    ensures |RecordVisit(cs, d)| == |cs|
    ensures RecordVisit(cs, d)[k] == RolledUp(cs[k], d)
    ensures forall i :: 0 <= i < |cs| && cs[i].id != d.customerId ==> RecordVisit(cs, d)[i] == cs[i]
  {
    var c := cs[k];
    FirstById(cs, d.customerId, k);
    MergeRollup(c, d);
  }

  /** Of several customers sharing an id, the lookup returns the earliest. */
  lemma FirstById(cs: seq<Customer>, id: string, k: nat)
    requires k < |cs| && cs[k].id == id
    requires forall j :: 0 <= j < k ==> cs[j].id != id
    ensures FindById(cs, id) == Some(cs[k])
  {
    FindFirst(cs, (c: Customer) => c.id == id, k);
  }

  /**
   * Recording a visit keeps every tier equal to the tier rule applied to the visit count,
   * whatever list the lookup used: the patch sets the count and its tier together.
   */
  lemma RecordVisitKeepsTiers(seen: seq<Customer>, cs: seq<Customer>, d: VisitDraft)
    requires TiersConsistent(cs)
    ensures TiersConsistent(RecordVisitSeen(seen, cs, d))
  {
  }

  /**
   * A customer appended after the list was captured is never credited with the visit unless an
   * earlier customer has the visit's id: the lookup does not see the new record.
   */
  lemma AppendedCustomerNotCredited(seen: seq<Customer>, c: Customer, d: VisitDraft)
    requires forall i :: 0 <= i < |seen| ==> seen[i].id != d.customerId
    ensures RecordVisitSeen(seen, seen + [c], d) == seen + [c]
  {
  }

  /**
   * With unique ids, recording a visit changes at most one customer, and never lowers a
   * visit count or a tier.
   */
  lemma RecordVisitMonotone(cs: seq<Customer>, d: VisitDraft)
    requires UniqueIds(cs) && TiersConsistent(cs)
    ensures |RecordVisit(cs, d)| == |cs|
    ensures forall i :: 0 <= i < |cs| ==> RecordVisit(cs, d)[i].visits >= cs[i].visits
    ensures forall i :: 0 <= i < |cs| ==> RecordVisit(cs, d)[i].tier.Rank() >= cs[i].tier.Rank()
    ensures forall i, j :: 0 <= i < j < |cs| ==> RecordVisit(cs, d)[i] == cs[i] || RecordVisit(cs, d)[j] == cs[j]
  {
    if k :| 0 <= k < |cs| && cs[k].id == d.customerId {
      RecordVisitRollsUp(cs, d, k);
      TierMonotone(cs[k].visits, cs[k].visits + 1);
      var r := RecordVisit(cs, d);
      forall i | 0 <= i < |cs| && i != k ensures r[i] == cs[i] {
        assert cs[i].id != d.customerId;
      }
    } else {
      RecordVisitOrphan(cs, d);
    }
  }

  /**
   * Without unique ids the roll-up can go backwards: `updateCustomer` patches every record
   * with the id, using the counts of the first one, so a later duplicate is demoted.
   */
  lemma DuplicateIdCanDemote()
    ensures var cs := [ Customer("7", "+1", "A", None, 0, 0, "", "", Bronze, 0, [], None, 5),
                        Customer("7", "+2", "B", None, 12, 0, "", "", Gold, 0, [], None, 15) ];
            var d := VisitDraft("7", "A", "+1", "2024-02-01", ["Haircut"], 100, "John Smith", 10, None);
            RecordVisit(cs, d)[1].visits == 1 && RecordVisit(cs, d)[1].tier == Bronze
  {
    var cs := [ Customer("7", "+1", "A", None, 0, 0, "", "", Bronze, 0, [], None, 5),
                Customer("7", "+2", "B", None, 12, 0, "", "", Gold, 0, [], None, 15) ];
    var d := VisitDraft("7", "A", "+1", "2024-02-01", ["Haircut"], 100, "John Smith", 10, None);
    RecordVisitRollsUp(cs, d, 0);
    assert RecordVisit(cs, d)[1] == Merge(cs[1], RollupPatch(cs[0], d));
  }

  /**
   * `addCustomer` does not check phone uniqueness: looking the phone up right after adding
   * finds the new record (with zero visits and points, Bronze) only if no earlier customer
   * had that phone; otherwise it still finds the earlier one.
   */
  lemma {:induction false} LookupAfterAdd(cs: seq<Customer>, d: CustomerDraft, id: string, joinDate: string)
    ensures FindByPhone(cs + [NewCustomer(d, id, joinDate)], d.phone) ==
            if FindByPhone(cs, d.phone).Some? then FindByPhone(cs, d.phone)
            else Some(NewCustomer(d, id, joinDate))
  {
    var cs' := cs + [NewCustomer(d, id, joinDate)];
    var samePhone := (c: Customer) => c.phone == d.phone;
    match FindIndex(cs, samePhone)
    case None =>
      assert forall j :: 0 <= j < |cs| ==> cs'[j].phone != d.phone;
      FirstByPhone(cs', d.phone, |cs|);
    case Some(k) =>
      FirstByPhone(cs, d.phone, k);
      assert cs'[k] == cs[k];
      FirstByPhone(cs', d.phone, k);
  }

  /** Appending a customer keeps tiers consistent, and keeps ids unique when its id is new. */
  lemma AddKeepsInvariants(cs: seq<Customer>, d: CustomerDraft, id: string, joinDate: string)
    ensures TiersConsistent(cs) ==> TiersConsistent(cs + [NewCustomer(d, id, joinDate)])
    ensures UniqueIds(cs) && (forall i :: 0 <= i < |cs| ==> cs[i].id != id) ==>
            UniqueIds(cs + [NewCustomer(d, id, joinDate)])
  {
  }

  // ---------------------------------------------------------------------------------------
  // Seed data loaded for a signed-in salon

  const DefaultServices: seq<string> :=
    ["Haircut", "Beard Trim", "Hair Wash", "Styling", "Coloring", "Massage", "Manicure", "Pedicure"]
  const DefaultBarbers: seq<string> := ["John Smith", "Sarah Johnson", "David Williams", "Grace Nkomo"]

  /** The salon built from the signed-in user, with the default catalogue and zero roll-ups. */
  function SalonFor(u: SessionStore.User): Salon {
    Salon(u.id, u.salonName, u.phone, u.address, DefaultServices, DefaultBarbers,
          u.subscription, u.subscriptionExpiry, 0, 0, 0.0, 0.0)
  }

  function SeedCustomers(): seq<Customer> {
    [ Customer("1", "+27701234567", "Michael Mthembu", Some("michael@email.com"), 12, 3600,
               "2024-01-15", "2023-08-15", Gold, 360, ["Haircut", "Beard Trim"], Some("John Smith"), 15),
      Customer("2", "+27702345678", "Jane Nkomo", Some("jane@email.com"), 8, 2400,
               "2024-01-14", "2023-10-20", Silver, 240, ["Haircut", "Styling"], Some("Sarah Johnson"), 10),
      Customer("3", "+27703456789", "Peter Williams", None, 25, 7500,
               "2024-01-13", "2023-05-10", Platinum, 750, ["Haircut", "Beard Trim", "Massage"],
               Some("David Williams"), 30),
      Customer("4", "+27704567890", "Nomsa Dlamini", Some("nomsa@email.com"), 6, 1800,
               "2024-01-12", "2023-11-05", Silver, 180, ["Haircut", "Coloring"], Some("Grace Nkomo"), 10),
      Customer("5", "+27705678901", "Thabo Molefe", None, 3, 900,
               "2024-01-11", "2023-12-01", Bronze, 90, ["Haircut"], Some("John Smith"), 5) ]
  }

  function SeedVisits(): seq<Visit> {
    [ Visit("1", "1", "Michael Mthembu", "+27701234567", "2024-01-15T10:30:00Z",
            ["Haircut", "Beard Trim"], 350, "John Smith", 35, None),
      Visit("2", "2", "Jane Nkomo", "+27702345678", "2024-01-14T14:15:00Z",
            ["Haircut", "Styling"], 450, "Sarah Johnson", 45, None),
      Visit("3", "3", "Peter Williams", "+27703456789", "2024-01-13T16:45:00Z",
            ["Haircut", "Massage"], 400, "David Williams", 40, None),
      Visit("4", "4", "Nomsa Dlamini", "+27704567890", "2024-01-12T11:20:00Z",
            ["Haircut", "Coloring"], 650, "Grace Nkomo", 65, None),
      Visit("5", "5", "Thabo Molefe", "+27705678901", "2024-01-11T09:15:00Z",
            ["Haircut"], 200, "John Smith", 20, None) ]
  }

  /**
   * The seed customers obey both rules: each tier is the tier for its visit count and each
   * points balance is the points for its total spend. Their ids are unique.
   */
  lemma SeedCustomersConsistent()
    ensures TiersConsistent(SeedCustomers()) && UniqueIds(SeedCustomers())
    ensures forall i :: 0 <= i < |SeedCustomers()| ==>
              SeedCustomers()[i].points == CalculatePoints(SeedCustomers()[i].totalSpent)
  {
    var cs := SeedCustomers();
    assert |cs| == 5;
    forall i | 0 <= i < 5
      ensures cs[i].tier == TierFor(cs[i].visits)
      ensures cs[i].points == CalculatePoints(cs[i].totalSpent)
    {
    }
    forall i, j | 0 <= i < j < 5 ensures cs[i].id != cs[j].id {
      assert cs[i].id == [['1', '2', '3', '4', '5'][i]];
      assert cs[j].id == [['1', '2', '3', '4', '5'][j]];
    }
  }

  /** Each seed visit earned the points of its amount and belongs to a seed customer. */
  lemma SeedVisitsConsistent()
    ensures forall i :: 0 <= i < |SeedVisits()| ==>
              SeedVisits()[i].pointsEarned == CalculatePoints(SeedVisits()[i].amount)
    ensures forall i :: 0 <= i < |SeedVisits()| ==> FindById(SeedCustomers(), SeedVisits()[i].customerId).Some?
  {
    var cs, vs := SeedCustomers(), SeedVisits();
    assert |cs| == 5 && |vs| == 5;
    forall i | 0 <= i < 5
      ensures vs[i].pointsEarned == CalculatePoints(vs[i].amount)
      ensures FindById(cs, vs[i].customerId).Some?
    {
      assert cs[i].id == vs[i].customerId;
    }
  }

  // ---------------------------------------------------------------------------------------
  // The store

  class Store {
    var salon: Option<Salon>
    var customers: seq<Customer>
    var visits: seq<Visit>
    var isLoading: bool

    /** The provider's initial state, before the signed-in user is known. */
    constructor ()
      ensures salon.None? && customers == [] && visits == [] && isLoading
    {
      salon, customers, visits, isLoading := None, [], [], true;
    }

    /** The effect that runs whenever the user changes: seed data when signed in, empty otherwise. */
    method Load(user: Option<SessionStore.User>)
      modifies this
      ensures user.Some? ==> salon == Some(SalonFor(user.value)) &&
                             customers == SeedCustomers() && visits == SeedVisits()
      ensures user.None? ==> salon.None? && customers == [] && visits == []
      ensures !isLoading
      ensures TiersConsistent(customers) && UniqueIds(customers)
    {
      if user.Some? {
        salon := Some(SalonFor(user.value));
        customers := SeedCustomers();
        visits := SeedVisits();
        SeedCustomersConsistent();
      } else {
        salon := None;
        customers := [];
        visits := [];
      }
      isLoading := false;
    }

    /** `addCustomer`: append one record with the store's defaults; nothing else changes. */
    method AddCustomer(d: CustomerDraft, id: string, joinDate: string)
      modifies this`customers
      ensures customers == old(customers) + [NewCustomer(d, id, joinDate)]
      ensures TiersConsistent(old(customers)) ==> TiersConsistent(customers)
    {
      AddKeepsInvariants(customers, d, id, joinDate);
      customers := customers + [NewCustomer(d, id, joinDate)];
    }

    /** `updateCustomer`: merge the patch into every record with this id, keeping order and length. */
    method UpdateCustomer(id: string, p: CustomerPatch)
      modifies this`customers
      ensures customers == PatchWhereId(old(customers), id, p)
    {
      customers := PatchWhereId(customers, id, p);
    }

    /**
     * `addVisit`: always append the visit; then roll it into the first customer with its id,
     * if there is one.
     */
    method AddVisit(d: VisitDraft, id: string, seen: seq<Customer>)
      modifies this`customers, this`visits
      ensures visits == old(visits) + [Stamp(d, id)]
      ensures customers == RecordVisitSeen(seen, old(customers), d)
      ensures seen == old(customers) ==> customers == RecordVisit(old(customers), d)
      ensures TiersConsistent(old(customers)) ==> TiersConsistent(customers)
    {
      visits := visits + [Stamp(d, id)];
      var found := FindById(seen, d.customerId);
      if found.Some? {
        var c := found.value;
        UpdateCustomer(c.id, RollupPatch(c, d));
      }
      if TiersConsistent(old(customers)) {
        RecordVisitKeepsTiers(seen, old(customers), d);
      }
    }

    /** `setSalon`. */
    method SetSalon(s: Salon)
      modifies this`salon
      ensures salon == Some(s)
    {
      salon := Some(s);
    }
  }
}
