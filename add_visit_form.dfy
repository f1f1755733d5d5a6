/**
 * The "Add Customer Visit" form (src/components/AddVisitModal.tsx): its fields, the phone
 * lookup that pre-fills them, the service checklist, and the submit handler that drives the
 * loyalty store. Clock readings are parameters; `parseInt` of the amount field is taken as
 * an already parsed integer; the `alert` and the dialog closing are not modelled.
 */
module AddVisitForm {
  import opened Wrappers
  import opened ArrayOps
  import opened SalonStore

  /** `handleServiceToggle`'s update: drop the service if selected, append it otherwise. */
  function Toggle(s: seq<string>, x: string): seq<string> {
    if x in s then Without(s, x) else s + [x]
  }

  /**
   * Toggling selects exactly the services it did not, leaves every other service as it was,
   * and keeps the selection free of duplicates.
   */
  lemma ToggleFlips(s: seq<string>, x: string)
    ensures x in Toggle(s, x) <==> x !in s
    ensures forall y :: y != x ==> (y in Toggle(s, x) <==> y in s)
    ensures NoDuplicates(s) ==> NoDuplicates(Toggle(s, x))
  {
  }

  /**
   * Toggling twice restores a selection that did not hold the service; one that did hold it
   * gets it back at the end.
   */
  lemma ToggleTwice(s: seq<string>, x: string)
    ensures x !in s ==> Toggle(Toggle(s, x), x) == s
    ensures x in s ==> Toggle(Toggle(s, x), x) == Without(s, x) + [x]
  {
    if x !in s {
      assert x in s + [x];
      assert Without(s + [x], x) == s by {
        WithoutLast(s, x);
      }
    }
  }

  lemma {:induction false} WithoutLast(s: seq<string>, x: string)
    requires x !in s
    ensures Without(s + [x], x) == s
  {
    if s == [] {
      assert [x][1..] == [];
    } else {
      assert (s + [x])[1..] == s[1..] + [x];
      WithoutLast(s[1..], x);
    }
  }

  /** What submitting does. */
  datatype Outcome =
    | Incomplete    // a required field is empty: the form alerts and nothing changes
    | NoCustomerId  // no customer id to record the visit against: nothing more happens
    | Recorded      // the visit went to the store and the form was cleared

  /** The clock readings one submit takes, one per `Date.now()` / `new Date()` call, in the order they are read. */
  datatype Instants = Instants(
    lastVisit: string,        // the new customer's `lastVisit`, read while building the draft
    newCustomerId: string,    // the id `addCustomer` assigns
    joinDate: string,         // the join date `addCustomer` assigns
    visitCustomerId: string,  // the id the form then guesses for the new customer
    visitDate: string,        // the visit's `date`
    visitId: string)          // the id `addVisit` assigns

  /**
   * When a new customer is created, the visit is looked up in the customer list the submit
   * handler captured before the customer was added. Unless an older customer happens to hold
   * the visit's customer id, the visit changes no customer: the new customer keeps zero visits,
   * whichever clock reading the visit carries as its customer id (even one equal to the id the
   * new customer received).
   */
  lemma NewCustomerVisitOrphaned(cs: seq<Customer>, cd: CustomerDraft, newId: string, joinDate: string,
                                 vd: VisitDraft)
    requires forall i :: 0 <= i < |cs| ==> cs[i].id != vd.customerId
    ensures RecordVisitSeen(cs, cs + [NewCustomer(cd, newId, joinDate)], vd) == cs + [NewCustomer(cd, newId, joinDate)]
    ensures RecordVisitSeen(cs, cs + [NewCustomer(cd, newId, joinDate)], vd)[|cs|].visits == 0
  {
    AppendedCustomerNotCredited(cs, NewCustomer(cd, newId, joinDate), vd);
  }

  class VisitForm {
    const store: Store
    var phone: string
    var customerName: string
    var email: string
    var selectedServices: seq<string>
    var selectedBarber: string
    var amount: string
    var isNewCustomer: bool

    /** Whether every required field is filled in (the guard of `handleSubmit`). */
    predicate Complete()
      reads this
    {
      phone != "" && customerName != "" && selectedBarber != "" && amount != "" && |selectedServices| > 0
    }

    /** Whether the form is in its initial, cleared state. */
    predicate Cleared()
      reads this
    {
      phone == "" && customerName == "" && email == "" && selectedServices == [] &&
      selectedBarber == "" && amount == "" && !isNewCustomer
    }

    /** The customer the form would create from its current fields. */
    function NewCustomerDraft(at: Instants): CustomerDraft
      reads this
    {
      CustomerDraft(phone, customerName, if email == "" then None else Some(email), at.lastVisit,
                    selectedServices, Some(selectedBarber))
    }

    /** The visit the form would record against `customerId` from its current fields. */
    function VisitDraftFor(customerId: string, parsedAmount: int, at: Instants): VisitDraft
      reads this
    {
      VisitDraft(customerId, customerName, phone, at.visitDate, selectedServices, parsedAmount,
                 selectedBarber, CalculatePoints(parsedAmount), None)
    }

    /** Whether no customer in the store has this id. */
    predicate NoCustomerHas(id: string)
      reads this, store
    {
      forall i :: 0 <= i < |store.customers| ==> store.customers[i].id != id
    }

    /** Whether submitting would create a customer: flagged new and no customer has the phone. */
    function CreatesCustomer(): bool
      reads this, store
    {
      isNewCustomer && FindByPhone(store.customers, phone).None?
    }

    /** The customer id submitting would record the visit against, if any. */
    function TargetId(at: Instants): Option<string>
      reads this, store
    {
      if CreatesCustomer() then Some(at.visitCustomerId)
      else match FindByPhone(store.customers, phone)
        case Some(c) => Some(c.id)
        case None => None
    }

    constructor (store: Store)
      ensures this.store == store && Cleared()
    {
      this.store := store;
      phone, customerName, email, selectedServices := "", "", "", [];
      selectedBarber, amount, isNewCustomer := "", "", false;
    }

    /** `handlePhoneChange`: record the phone and pre-fill from the customer who has it. */
    method HandlePhoneChange(value: string)
      modifies this
      ensures phone == value
      ensures match FindByPhone(store.customers, value)
              case Some(c) => customerName == c.name && email == c.email.GetOr("") && !isNewCustomer
              case None => customerName == "" && email == "" && isNewCustomer
      ensures selectedServices == old(selectedServices) && selectedBarber == old(selectedBarber)
      ensures amount == old(amount)
    {
      phone := value;
      var customer := FindByPhone(store.customers, value);
      if customer.Some? {
        customerName := customer.value.name;
        email := customer.value.email.GetOr("");
        isNewCustomer := false;
      } else {
        customerName := "";
        email := "";
        isNewCustomer := true;
      }
    }

    /** `handleServiceToggle`. */
    method HandleServiceToggle(service: string)
      modifies this`selectedServices
      ensures selectedServices == Toggle(old(selectedServices), service)
    {
      selectedServices := Toggle(selectedServices, service);
    }

    /** The plain input handlers of the name, email, barber and amount fields. */
    method SetCustomerName(v: string)
      modifies this`customerName
      ensures customerName == v
    {
      customerName := v;
    }

    method SetEmail(v: string)
      modifies this`email
      ensures email == v
    {
      email := v;
    }

    method SetBarber(v: string)
      modifies this`selectedBarber
      ensures selectedBarber == v
    {
      selectedBarber := v;
    }

    method SetAmount(v: string)
      modifies this`amount
      ensures amount == v
    {
      amount := v;
    }

    /** The "Reset form" step: every field back to empty. */
    method Reset()
      modifies this
      ensures Cleared()
    {
      phone, customerName, email, selectedServices := "", "", "", [];
      selectedBarber, amount, isNewCustomer := "", "", false;
    }

    /** The customer list once the submit has created its customer, if it creates one. */
    function CustomersAfterCreate(at: Instants): seq<Customer>
      reads this, store
    {
      if CreatesCustomer() then store.customers + [NewCustomer(NewCustomerDraft(at), at.newCustomerId, at.joinDate)]
      else store.customers
    }

    /** The visit a submit records (against the target id, when there is one). */
    function SubmittedVisit(parsedAmount: int, at: Instants): VisitDraft
      reads this, store
    {
      VisitDraftFor(TargetId(at).GetOr(""), parsedAmount, at)
    }

    /**
     * `handleSubmit`. An incomplete form changes nothing. Otherwise a customer flagged new whose
     * phone is unknown is added first; then, if there is a non-empty customer id, the visit is
     * recorded with the points for the parsed amount and the form is cleared.
     */
    method HandleSubmit(parsedAmount: int, at: Instants) returns (outcome: Outcome)
      modifies this, store`customers, store`visits
      ensures outcome == Incomplete <==> !old(Complete())
      ensures outcome == Incomplete ==>
        unchanged(this) && store.customers == old(store.customers) && store.visits == old(store.visits)
      ensures outcome == Recorded <==> old(Complete()) && old(TargetId(at)).Some? && old(TargetId(at)).value != ""
      ensures outcome == NoCustomerId ==>
        unchanged(this) && store.visits == old(store.visits) && store.customers == old(CustomersAfterCreate(at))
      ensures outcome == Recorded ==>
        store.visits == old(store.visits) + [Stamp(old(SubmittedVisit(parsedAmount, at)), at.visitId)]
      ensures outcome == Recorded ==>
        store.customers == RecordVisitSeen(old(store.customers), old(CustomersAfterCreate(at)),
                                           old(SubmittedVisit(parsedAmount, at)))
      ensures outcome == Recorded && !old(CreatesCustomer()) ==>
        store.customers == RecordVisit(old(store.customers), old(SubmittedVisit(parsedAmount, at)))
      ensures outcome == Recorded && old(CreatesCustomer()) && old(NoCustomerHas(at.visitCustomerId)) ==>
        store.customers == old(CustomersAfterCreate(at))
      ensures outcome == Recorded ==> Cleared()
      ensures old(TiersConsistent(store.customers)) ==> TiersConsistent(store.customers)
    {
      if !Complete() {
        return Incomplete;
      }
      outcome := Commit(parsedAmount, at);
    }

    /**
     * The part of `handleSubmit` after validation. `addVisit` looks the customer up in the
     * list captured when the handler was created, that is, before `addCustomer` ran.
     */
    method Commit(parsedAmount: int, at: Instants) returns (outcome: Outcome)
      requires Complete()
      modifies this, store`customers, store`visits
      ensures outcome != Incomplete
      ensures outcome == Recorded <==> old(TargetId(at)).Some? && old(TargetId(at)).value != ""
      ensures outcome == NoCustomerId ==>
        unchanged(this) && store.visits == old(store.visits) && store.customers == old(CustomersAfterCreate(at))
      ensures outcome == Recorded ==>
        store.visits == old(store.visits) + [Stamp(old(SubmittedVisit(parsedAmount, at)), at.visitId)]
      ensures outcome == Recorded ==>
        store.customers == RecordVisitSeen(old(store.customers), old(CustomersAfterCreate(at)),
                                           old(SubmittedVisit(parsedAmount, at)))
      ensures outcome == Recorded && !old(CreatesCustomer()) ==>
        store.customers == RecordVisit(old(store.customers), old(SubmittedVisit(parsedAmount, at)))
      ensures outcome == Recorded && old(CreatesCustomer()) && old(NoCustomerHas(at.visitCustomerId)) ==>
        store.customers == old(CustomersAfterCreate(at))
      ensures outcome == Recorded ==> Cleared()
      ensures old(TiersConsistent(store.customers)) ==> TiersConsistent(store.customers)
    {
      ghost var afterCreate := CustomersAfterCreate(at);
      ghost var target := TargetId(at);
      ghost var submitted := SubmittedVisit(parsedAmount, at);
      var seen := store.customers;
      var existing := FindByPhone(store.customers, phone);
      var customerId: Option<string> := if existing.Some? then Some(existing.value.id) else None;
      if isNewCustomer && existing.None? {
        store.AddCustomer(NewCustomerDraft(at), at.newCustomerId, at.joinDate);
        customerId := Some(at.visitCustomerId);
      }
      assert store.customers == afterCreate;
      assert customerId == target;
      if customerId.Some? && customerId.value != "" {
        var visit := VisitDraftFor(customerId.value, parsedAmount, at);
        assert visit == submitted;
        store.AddVisit(visit, at.visitId, seen);
        if isNewCustomer && existing.None? && forall i :: 0 <= i < |seen| ==> seen[i].id != at.visitCustomerId {
          AppendedCustomerNotCredited(seen, NewCustomer(NewCustomerDraft(at), at.newCustomerId, at.joinDate), visit);
        }
        Reset();
        outcome := Recorded;
      } else {
        outcome := NoCustomerId;
      }
    }
  }
}
