/**
 * The SMS campaign dialog (src/components/SMSCampaignModal.tsx): audiences by tier or by
 * inactivity, the recipient count and cost, message templates and the send guard. Whether a
 * customer's last visit lies more than 30 days back depends on the clock and date parsing, so it
 * is the parameter `lapsed`. Sending itself is an `alert`; the model returns what it reports.
 */
module SmsCampaign {
  import opened Wrappers
  import opened ArrayOps
  import opened SalonStore

  /** Customers holding tier `t`, in store order. */
  function TierAudience(cs: seq<Customer>, t: Tier): (r: seq<Customer>)
    ensures forall c :: c in r <==> c in cs && c.tier == t
  {
    Filter(cs, (c: Customer) => c.tier == t)
  }

  /** `audienceFilters[key]`: the audience a select value names, none for any other key. */
  function Audience(cs: seq<Customer>, key: string, lapsed: Customer -> bool): (r: Option<seq<Customer>>)
    ensures r.Some? <==> key in {"all", "bronze", "silver", "gold", "platinum", "inactive"}
    ensures key == "all" ==> r == Some(cs)
    ensures r.Some? ==> forall c :: c in r.value ==> c in cs
  {
    if key == "all" then Some(cs)
    else if key == "bronze" then Some(TierAudience(cs, Bronze))
    else if key == "silver" then Some(TierAudience(cs, Silver))
    else if key == "gold" then Some(TierAudience(cs, Gold))
    else if key == "platinum" then Some(TierAudience(cs, Platinum))
    else if key == "inactive" then Some(Filter(cs, lapsed))
    else None
  }

  /** Every customer holds exactly one tier, so the tier audiences split the whole list. */
  lemma {:induction false} TierAudiencesPartition(cs: seq<Customer>)
    ensures |TierAudience(cs, Bronze)| + |TierAudience(cs, Silver)| +
            |TierAudience(cs, Gold)| + |TierAudience(cs, Platinum)| == |cs|
  {
    if cs != [] {
      TierAudiencesPartition(cs[1..]);
      TierAudienceCons(cs, Bronze);
      TierAudienceCons(cs, Silver);
      TierAudienceCons(cs, Gold);
      TierAudienceCons(cs, Platinum);
    }
  }

  lemma TierAudienceCons(cs: seq<Customer>, t: Tier)
    requires cs != []
    ensures |TierAudience(cs, t)| == (if cs[0].tier == t then 1 else 0) + |TierAudience(cs[1..], t)|
  {
  }

  /** `getTargetCount`: 0 without a selection or for an unknown key, else the audience size. */
  function TargetCount(cs: seq<Customer>, key: string, lapsed: Customer -> bool): (n: nat)
    ensures n <= |cs|
    ensures key == "" || Audience(cs, key, lapsed).None? ==> n == 0
    ensures key != "" && Audience(cs, key, lapsed).Some? ==> n == |Audience(cs, key, lapsed).value|
  {
    if key == "" then 0
    else match Audience(cs, key, lapsed)
      case None => 0
      case Some(a) => |a|
  }

  /** `estimatedCost`: one shilling per message. */
  function EstimatedCost(cs: seq<Customer>, key: string, lapsed: Customer -> bool): (cost: nat)
    ensures cost == TargetCount(cs, key, lapsed) * 1
    ensures cost <= |cs|
  {
    TargetCount(cs, key, lapsed)
  }

  /** The four campaign types that have a template. */
  datatype CampaignKind = Birthday | Reminder | Promotion | Reward

  /** The select value of each campaign type. */
  function Key(kind: CampaignKind): string {
    match kind
    case Birthday => "birthday"
    case Reminder => "reminder"
    case Promotion => "promotion"
    case Reward => "reward"
  }

  /** The campaign type a select value names, if any: exactly the inverse of `Key`. */
  function KindOf(campaignType: string): (r: Option<CampaignKind>)
    ensures r.Some? ==> Key(r.value) == campaignType
    ensures r.None? ==> forall k :: Key(k) != campaignType
  {
    if campaignType == "birthday" then Some(Birthday)
    else if campaignType == "reminder" then Some(Reminder)
    else if campaignType == "promotion" then Some(Promotion)
    else if campaignType == "reward" then Some(Reward)
    else None
  }

  /** Every campaign type is recognised from its own key. */
  lemma KindOfKey(kind: CampaignKind)
    ensures KindOf(Key(kind)) == Some(kind)
  {
  }

  /** `campaignTemplates[type]`: the subject line and message, with the salon's name filled in. */
  function Template(kind: CampaignKind, salonName: string): (string, string) {
    match kind
    case Birthday =>
      ("Happy Birthday! \U{1F389}",
       "Happy Birthday {name}! \U{1F382} Celebrate with us and get 20% off your next visit at "
       + salonName + ". Book now!")
    case Reminder =>
      ("Time for your next visit \U{2702}\U{FE0F}",
       "Hi {name}! It's been a while since your last visit to " + salonName
       + ". Book your appointment today and keep looking great!")
    case Promotion =>
      ("Special Offer Just for You! \U{1F4AB}",
       "Exclusive offer for our {tier} members! Get 15% off all services this week at "
       + salonName + ". Limited time only!")
    case Reward =>
      ("Congratulations! You've earned a reward! \U{1F381}",
       "Amazing news {name}! You've reached {tier} tier and earned a free service. Come claim your reward at "
       + salonName + "!")
  }

  /** What a successful send reports: the number of recipients and the cost. */
  datatype Sent = Sent(recipients: nat, cost: nat)

  class CampaignForm {
    var campaignType: string
    var targetAudience: string
    var message: string
    var subject: string
    const salonName: string

    constructor (salonName: string)
      ensures this.salonName == salonName
      ensures campaignType == "" && targetAudience == "" && message == "" && subject == ""
    {
      this.salonName := salonName;
      campaignType, targetAudience, message, subject := "", "", "", "";
    }

    /** Choosing a type always records it; a known type also fills in its template. */
    method HandleCampaignTypeChange(t: string)
      modifies this
      ensures campaignType == t && targetAudience == old(targetAudience)
      ensures KindOf(t).Some? ==> (subject, message) == Template(KindOf(t).value, salonName)
      ensures KindOf(t).None? ==> subject == old(subject) && message == old(message)
    {
      campaignType := t;
      var kind := KindOf(t);
      if kind.Some? {
        var template := Template(kind.value, salonName);
        subject, message := template.0, template.1;
      }
    }

    method SetTargetAudience(key: string)
      modifies this`targetAudience
      ensures targetAudience == key
    {
      targetAudience := key;
    }

    method SetMessage(text: string)
      modifies this`message
      ensures message == text
    {
      message := text;
    }

    method SetSubject(text: string)
      modifies this`subject
      ensures subject == text
    {
      subject := text;
    }

    /** `handleSend`: refuses unless type, audience and message are filled in; else reports the send. */
    method HandleSend(cs: seq<Customer>, lapsed: Customer -> bool) returns (r: Option<Sent>)
      ensures r.None? <==> campaignType == "" || targetAudience == "" || message == ""
      ensures r.Some? ==> r.value.recipients == TargetCount(cs, targetAudience, lapsed)
      ensures r.Some? ==> r.value.cost == r.value.recipients * 1
    {
      if campaignType == "" || targetAudience == "" || message == "" {
        return None;
      }
      var count := TargetCount(cs, targetAudience, lapsed);
      r := Some(Sent(count, EstimatedCost(cs, targetAudience, lapsed)));
    }
  }
}
