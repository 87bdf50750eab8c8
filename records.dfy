/** The records the backend sends, as the pages read them: campaigns, donations, users and
    the two shapes a list response can take. Every property the code reads with a
    fallback is optional here. The `_id` property is called `oid`. */
module Records {
  import opened JsCore

  /** `isActive` as the backend may send it: missing, `null`, or a boolean. */
  datatype ActiveFlag = Missing | Null | Flag(b: bool)

  /** `deadline` as the backend may send it: missing, `null`, text that is not a date (the
      empty string included), or a date, read as its calendar day. */
  datatype Deadline = NoDeadline | NullDeadline | NotADate(text: string) | OnDay(day: int)

  datatype Campaign = Campaign(
    oid: Option<string>,
    id: Option<string>,
    title: string,
    description: string,
    goalAmount: Option<real>,
    deadline: Deadline,
    isActive: ActiveFlag,
    currentAmount: Option<real>,
    totalVerifiedDonations: Option<real>,
    /** attached by the campaign list after merging the donations */
    calculatedVerifiedAmount: Option<real>)

  /** A donation's `campaignId`: absent, a bare id, or the populated campaign summary. */
  datatype CampaignRef = NoRef | RawRef(rawId: string) | Populated(refOid: Option<string>, refTitle: Option<string>)

  /** The donor summary the backend populates into `user`. */
  datatype Donor = Donor(name: Option<string>, email: Option<string>)

  datatype Donation = Donation(
    oid: Option<string>,
    id: Option<string>,
    campaignId: CampaignRef,
    /** the free-text category, also the last fallback for the campaign reference */
    campaign: Option<string>,
    amount: Option<real>,
    status: Option<string>,
    donationType: Option<string>,
    /** the legacy `type` property */
    altType: Option<string>,
    paymentMethod: Option<string>,
    /** the legacy `payment` property */
    altPayment: Option<string>,
    user: Option<Donor>,
    donorName: Option<string>,
    /** timestamps; None when absent */
    createdAt: Option<int>,
    date: Option<int>)

  datatype User = User(
    name: Option<string>,
    email: Option<string>,
    phone: Option<string>,
    role: Option<string>,
    isVerified: Option<bool>)

  /** A list response: the array itself, or an object carrying it under a key. */
  datatype Payload<T> = Bare(items: seq<T>) | Wrapped(inner: Option<seq<T>>)

  /** `Array.isArray(data) ? data : (data.<key> || [])` */
  function ListOf<T>(p: Payload<T>): seq<T> {
    match p
    case Bare(items) => items
    case Wrapped(None) => []
    case Wrapped(Some(items)) => items
  }

  /** The JavaScript value a campaign id expression evaluates to. */
  datatype Key = Undefined | Str(s: string) | AnObject

  /** `d.campaignId?._id || d.campaignId || d.campaign` */
  function ResolveCampaignId(d: Donation): Key {
    match d.campaignId
    case Populated(refOid, _) =>
      if Truthy(refOid) then Str(refOid.value) else AnObject
    case RawRef(rawId) =>
      if rawId != "" then Str(rawId)
      else if d.campaign.Some? then Str(d.campaign.value) else Undefined
    case NoRef =>
      if d.campaign.Some? then Str(d.campaign.value) else Undefined
  }

  /** `campaign._id || campaign.id` */
  function CampaignKey(c: Campaign): (k: Key)
    ensures k != AnObject
  {
    if Truthy(c.oid) then Str(c.oid.value)
    else if c.id.Some? then Str(c.id.value) else Undefined
  }

  /** `d._id || d.id` */
  function DonationId(d: Donation): Option<string> {
    Or(d.oid, d.id)
  }

  /** The resolution order: a populated id wins, then a non-empty raw id, then the
      category field. */
  lemma ResolveCampaignIdPrecedence(d: Donation)
    ensures d.campaignId.Populated? && Truthy(d.campaignId.refOid) ==>
              ResolveCampaignId(d) == Str(d.campaignId.refOid.value)
    ensures d.campaignId.Populated? && !Truthy(d.campaignId.refOid) ==>
              ResolveCampaignId(d) == AnObject
    ensures d.campaignId.RawRef? && d.campaignId.rawId != "" ==>
              ResolveCampaignId(d) == Str(d.campaignId.rawId)
    ensures (d.campaignId.NoRef? || d.campaignId == RawRef("")) ==>
              ResolveCampaignId(d) == (if d.campaign.Some? then Str(d.campaign.value) else Undefined)
  {
  }

  /** A populated campaign whose `_id` is empty resolves to the object itself, which is
      never equal to any campaign's key. */
  lemma PopulatedWithoutIdNeverMatches(d: Donation, c: Campaign)
    requires d.campaignId.Populated? && !Truthy(d.campaignId.refOid)
    ensures ResolveCampaignId(d) != CampaignKey(c)
  {
  }

  // ---------------------------------------------------------------------------------
  // Display fallbacks shared by the tables
  // ---------------------------------------------------------------------------------

  /** `d.amount || 0` (and `parseFloat(d.amount) || 0` for a numeric amount) */
  function Amount(d: Donation): real {
    NumOrZero(d.amount)
  }

  /** `d.user?.name || d.donorName` */
  function DonorNameOf(d: Donation): Option<string> {
    Or(if d.user.Some? then d.user.value.name else None, d.donorName)
  }

  /** `d.user?.email` */
  function DonorEmailOf(d: Donation): Option<string> {
    if d.user.Some? then d.user.value.email else None
  }

  /** `d.campaignId?.title || d.campaign` */
  function CampaignTitleOf(d: Donation): Option<string> {
    Or(if d.campaignId.Populated? then d.campaignId.refTitle else None, d.campaign)
  }

  /** `d.paymentMethod || d.payment` */
  function PaymentOf(d: Donation): Option<string> {
    Or(d.paymentMethod, d.altPayment)
  }

  /** `d.donationType || d.type` */
  function TypeOf(d: Donation): Option<string> {
    Or(d.donationType, d.altType)
  }
}
