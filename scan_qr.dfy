/**
 * The customer check-in page reached by scanning the salon's QR code (src/pages/ScanQR.tsx):
 * the customer enters a phone number, is looked up in the store, and sees their status. The
 * same tier colour switch appears in src/components/CustomerDetailsModal.tsx.
 */
module ScanQr {
  import opened Wrappers
  import opened SalonStore
  import CustomerDetails

  /** The tier's name as the source spells it in its string union. */
  function TierName(t: Tier): string {
    match t
    case Bronze => "Bronze"
    case Silver => "Silver"
    case Gold => "Gold"
    case Platinum => "Platinum"
  }

  /** `getTierColor`: three named tiers get their own classes; any other string gets Bronze's. */
  function TierColor(tier: string): string {
    if tier == "Platinum" then "text-purple-700 bg-purple-100"
    else if tier == "Gold" then "text-yellow-700 bg-yellow-100"
    else if tier == "Silver" then "text-gray-700 bg-gray-100"
    else "text-orange-700 bg-orange-100"
  }

  /** Any string other than the three upper tier names, known or not, is coloured as Bronze. */
  lemma TierColorDefault(tier: string)
    ensures tier !in {"Platinum", "Gold", "Silver"} <==> TierColor(tier) == TierColor(TierName(Bronze))
  {
  }

  /** Each of the four tiers is shown in a colour of its own. */
  lemma TierColorsDistinct(s: Tier, t: Tier)
    ensures TierColor(TierName(s)) == TierColor(TierName(t)) <==> s == t
  {
  }

  /** The free-service banner: shown exactly when the visit count has reached the reward mark. */
  predicate RewardDue(c: Customer) {
    c.visits >= c.nextRewardAt
  }

  /** The banner and the details dialog's "Visits to Reward" agree: due exactly when none remain. */
  lemma RewardDueWhenNoVisitsRemain(c: Customer)
    ensures RewardDue(c) <==> CustomerDetails.VisitsToReward(c) <= 0
  {
  }

  class CheckIn {
    var phone: string
    var customer: Option<Customer>
    var isCheckedIn: bool

    constructor ()
      ensures phone == "" && customer.None? && !isCheckedIn
    {
      phone, customer, isCheckedIn := "", None, false;
    }

    method SetPhone(text: string)
      modifies this`phone
      ensures phone == text
    {
      phone := text;
    }

    /**
     * `handlePhoneSubmit`: the lookup result replaces `customer`, found or not, and a found
     * customer checks in. Nothing ever checks out again.
     */
    method HandlePhoneSubmit(store: Store)
      modifies this`customer, this`isCheckedIn
      ensures customer == FindByPhone(store.customers, phone)
      ensures isCheckedIn == (old(isCheckedIn) || customer.Some?)
      ensures customer.Some? ==> customer.value in store.customers && customer.value.phone == phone
    {
      customer := FindByPhone(store.customers, phone);
      if customer.Some? {
        isCheckedIn := true;
      }
    }
  }

  /** A check-in session, as a list of phone submissions against a fixed customer list. */
  function CheckedInAfter(cs: seq<Customer>, phones: seq<string>, checkedIn: bool): (r: bool)
    ensures checkedIn ==> r
    ensures r <==> checkedIn || exists i :: 0 <= i < |phones| && FindByPhone(cs, phones[i]).Some?
  {
    if phones == [] then checkedIn
    else
      var r := CheckedInAfter(cs, phones[1..], checkedIn || FindByPhone(cs, phones[0]).Some?);
      assert forall i :: 1 <= i < |phones| ==> phones[1..][i - 1] == phones[i];
      r
  }
}
