/** The campaign list page: donations merged into campaigns as a verified total, the
    active-first ordering, the progress bar, the per-card expiry and button logic, the
    create/edit form's validator and the page's handlers. */
module Campaigns {
  import opened JsCore
  import opened Records
  import opened Forms

  // ---------------------------------------------------------------------------------
  // Reconciling donations with campaigns
  // ---------------------------------------------------------------------------------

  /** `d.status === 'Verified'` */
  predicate IsVerified(d: Donation) {
    d.status == Some("Verified")
  }

  /** A donation counts towards the campaign keyed `key` when its resolved campaign id is
      that key and it is verified. */
  predicate CountsToward(key: Key, d: Donation) {
    ResolveCampaignId(d) == key && IsVerified(d)
  }

  /** What a donation adds to the verified total of the campaign keyed `key`. */
  function CountedAmount(key: Key, d: Donation): real {
    if CountsToward(key, d) then Amount(d) else 0.0
  }

  /** The filter-then-reduce of the merge: the sum of `amount || 0` over the donations that
      count towards `key`. */
  function VerifiedSum(key: Key, ds: seq<Donation>): real {
    SumOf(Filter(ds, Counts(key)), Amount)
  }

  /** Each donation's counted amount, as a callback. */
  function Counted(key: Key): Donation -> real {
    d => CountedAmount(key, d)
  }

  /** The filter's callback for the campaign keyed `key`. */
  function Counts(key: Key): Donation -> bool {
    d => CountsToward(key, d)
  }

  /** One more donation adds exactly its counted amount. */
  lemma VerifiedSumSnoc(key: Key, ds: seq<Donation>, d: Donation)
    ensures VerifiedSum(key, ds + [d]) == VerifiedSum(key, ds) + CountedAmount(key, d)
  {
    assert (ds + [d])[..|ds|] == ds;
    var p := Counts(key);
    assert p(d) == CountsToward(key, d);
    var f := Filter(ds + [d], p);
    if CountsToward(key, d) {
      assert f == Filter(ds, p) + [d];
      assert f[..|f| - 1] == Filter(ds, p) && f[|f| - 1] == d;
    } else {
      assert f == Filter(ds, p);
    }
  }

  /** The verified total is the sum of every donation's counted amount: a donation adds its
      amount when its resolved id is the key and it is verified, and nothing otherwise. */
  lemma {:induction false} VerifiedSumIsCountedSum(key: Key, ds: seq<Donation>)
    ensures VerifiedSum(key, ds) == SumOf(ds, Counted(key))
    decreases |ds|
  {
    if ds != [] {
      var init := ds[..|ds| - 1];
      VerifiedSumIsCountedSum(key, init);
      VerifiedSumSnoc(key, init, ds[|ds| - 1]);
      assert init + [ds[|ds| - 1]] == ds;
    }
  }

  /** Pending, Rejected and every other status never count: dropping the unverified
      donations, or adding more of them, leaves every total as it was. */
  lemma {:induction false} VerifiedSumIgnoresUnverified(key: Key, ds: seq<Donation>)
    ensures VerifiedSum(key, ds) == VerifiedSum(key, Filter(ds, IsVerified))
    decreases |ds|
  {
    if ds != [] {
      var init, last := ds[..|ds| - 1], ds[|ds| - 1];
      VerifiedSumIgnoresUnverified(key, init);
      VerifiedSumSnoc(key, init, last);
      assert init + [last] == ds;
      if IsVerified(last) {
        VerifiedSumSnoc(key, Filter(init, IsVerified), last);
      } else {
        assert Filter(ds, IsVerified) == Filter(init, IsVerified);
      }
    }
  }

  /** With no negative amounts, a campaign's verified total lies between 0 and the sum of
      all donation amounts. */
  lemma {:induction false} VerifiedSumBounds(key: Key, ds: seq<Donation>)
    requires forall i :: 0 <= i < |ds| ==> Amount(ds[i]) >= 0.0
    ensures 0.0 <= VerifiedSum(key, ds) <= SumOf(ds, Amount)
    decreases |ds|
  {
    if ds != [] {
      var init := ds[..|ds| - 1];
      VerifiedSumBounds(key, init);
      VerifiedSumSnoc(key, init, ds[|ds| - 1]);
      assert init + [ds[|ds| - 1]] == ds;
    }
  }

  /** `{ ...campaign, calculatedVerifiedAmount: verifiedSum }` */
  function WithVerifiedAmount(c: Campaign, ds: seq<Donation>): Campaign {
    c.(calculatedVerifiedAmount := Some(VerifiedSum(CampaignKey(c), ds)))
  }

  /** `fetchedCampaigns.map(...)`: the merge step. */
  function Merge(cs: seq<Campaign>, ds: seq<Donation>): (r: seq<Campaign>)
    ensures |r| == |cs|
  {
    seq(|cs|, i requires 0 <= i < |cs| => WithVerifiedAmount(cs[i], ds))
  }

  /** Every merged campaign carries its verified total and keeps all other fields. */
  lemma MergeSetsOnlyVerifiedAmount(cs: seq<Campaign>, ds: seq<Donation>, i: int)
    requires 0 <= i < |cs|
    ensures Merge(cs, ds)[i].calculatedVerifiedAmount == Some(VerifiedSum(CampaignKey(cs[i]), ds))
    ensures Merge(cs, ds)[i].(calculatedVerifiedAmount := cs[i].calculatedVerifiedAmount) == cs[i]
  {
  }

  // ---------------------------------------------------------------------------------
  // Active first
  // ---------------------------------------------------------------------------------

  /** `isActive !== false`: missing and `null` count as active for display. */
  predicate ShownActive(c: Campaign) {
    c.isActive != Flag(false)
  }

  predicate ShownInactive(c: Campaign) {
    c.isActive == Flag(false)
  }

  /** The comparator of the active-first sort. */
  function ActiveFirst(a: Campaign, b: Campaign): int {
    if ShownActive(a) == ShownActive(b) then 0 else if ShownActive(a) then -1 else 1
  }

  /** An inactive campaign inserted into "actives, then inactives" lands between the two
      groups. */
  lemma {:induction false} InsertInactive(x: Campaign, actives: seq<Campaign>, inactives: seq<Campaign>)
    requires ShownInactive(x)
    requires forall k :: 0 <= k < |actives| ==> ShownActive(actives[k])
    requires forall k :: 0 <= k < |inactives| ==> ShownInactive(inactives[k])
    ensures Insert(x, actives + inactives, ActiveFirst) == actives + [x] + inactives
    decreases |actives|
  {
    if actives != [] {
      InsertInactive(x, actives[1..], inactives);
      assert (actives + inactives)[1..] == actives[1..] + inactives;
    }
  }

  lemma FilterAllSatisfy(cs: seq<Campaign>, p: Campaign -> bool)
    ensures forall k :: 0 <= k < |Filter(cs, p)| ==> p(Filter(cs, p)[k])
  {
    forall k | 0 <= k < |Filter(cs, p)| ensures p(Filter(cs, p)[k]) {
      FilterMembers(cs, p, Filter(cs, p)[k]);
    }
  }

  /** An active campaign inserted in front of a list that starts with no inactive
      campaign before an active one stays in front. */
  lemma InsertActive(x: Campaign, r: seq<Campaign>)
    requires ShownActive(x)
    ensures Insert(x, r, ActiveFirst) == [x] + r
  {
  }

  /** An active campaign in front of the input goes to the front of the actives. */
  lemma PartitionConsActive(c: Campaign, rest: seq<Campaign>)
    requires ShownActive(c)
    ensures Filter([c] + rest, ShownActive) + Filter([c] + rest, ShownInactive)
            == [c] + (Filter(rest, ShownActive) + Filter(rest, ShownInactive))
  {
    FilterCons(c, rest, ShownActive);
    FilterCons(c, rest, ShownInactive);
  }

  /** An inactive campaign in front of the input goes to the front of the inactives. */
  lemma PartitionConsInactive(c: Campaign, rest: seq<Campaign>)
    requires ShownInactive(c)
    ensures Filter([c] + rest, ShownActive) + Filter([c] + rest, ShownInactive)
            == Filter(rest, ShownActive) + [c] + Filter(rest, ShownInactive)
  {
    FilterCons(c, rest, ShownActive);
    FilterCons(c, rest, ShownInactive);
  }

  /** Putting one more campaign in front of the input adds it to its group's front. */
  lemma PartitionCons(c: Campaign, rest: seq<Campaign>)
    ensures Filter([c] + rest, ShownActive) + Filter([c] + rest, ShownInactive)
            == Insert(c, Filter(rest, ShownActive) + Filter(rest, ShownInactive), ActiveFirst)
  {
    var actives, inactives := Filter(rest, ShownActive), Filter(rest, ShownInactive);
    if ShownActive(c) {
      PartitionConsActive(c, rest);
      InsertActive(c, actives + inactives);
    } else {
      PartitionConsInactive(c, rest);
      FilterAllSatisfy(rest, ShownActive);
      FilterAllSatisfy(rest, ShownInactive);
      InsertInactive(c, actives, inactives);
    }
  }

  /** The sorted list is the active campaigns in input order followed by the inactive ones
      in input order. */
  lemma {:induction false} ActiveFirstPartitions(cs: seq<Campaign>)
    ensures ArraySort(cs, ActiveFirst) == Filter(cs, ShownActive) + Filter(cs, ShownInactive)
    decreases |cs|
  {
    if cs != [] {
      ActiveFirstPartitions(cs[1..]);
      PartitionCons(cs[0], cs[1..]);
      assert cs == [cs[0]] + cs[1..];
    }
  }

  /** The sort is a permutation in which no inactive campaign precedes an active one. */
  lemma ActiveFirstOrders(cs: seq<Campaign>)
    ensures multiset(ArraySort(cs, ActiveFirst)) == multiset(cs)
    ensures forall i, j :: 0 <= i < j < |ArraySort(cs, ActiveFirst)| && ShownInactive(ArraySort(cs, ActiveFirst)[i])
              ==> ShownInactive(ArraySort(cs, ActiveFirst)[j])
  {
    ArraySortPermutes(cs, ActiveFirst);
    ActiveFirstPartitions(cs);
    FilterAllSatisfy(cs, ShownActive);
    FilterAllSatisfy(cs, ShownInactive);
    var a, b := Filter(cs, ShownActive), Filter(cs, ShownInactive);
    var r := ArraySort(cs, ActiveFirst);
    assert r == a + b;
    forall i, j | 0 <= i < j < |r| ensures ShownInactive(r[i]) ==> ShownInactive(r[j]) {
      if j < |a| {
        assert r[i] == a[i];
      } else {
        assert r[j] == b[j - |a|];
      }
    }
  }

  /** The list the page shows after a fetch: the fetched campaigns merged with the fetched
      donations (none when that fetch failed), active first; nothing when the campaign
      fetch failed. */
  function CampaignList(campaignFetch: Fetch<Payload<Campaign>>, donationFetch: Fetch<Payload<Donation>>): seq<Campaign> {
    if campaignFetch.Failed? then []
    else
      var ds := if donationFetch.Fetched? then ListOf(donationFetch.data) else [];
      ArraySort(Merge(ListOf(campaignFetch.data), ds), ActiveFirst)
  }

  /** When the donation fetch fails, every listed campaign still gets a verified total, and
      it is 0. */
  lemma FailedDonationFetchShowsZero(campaignFetch: Fetch<Payload<Campaign>>, message: Option<string>, i: int)
    requires 0 <= i < |CampaignList(campaignFetch, Failed(message))|
    ensures GetDisplayValues(CampaignList(campaignFetch, Failed(message))[i]) == 0.0
  {
    var cs := ListOf(campaignFetch.data);
    var merged := Merge(cs, []);
    ArraySortPermutes(merged, ActiveFirst);
    var c := CampaignList(campaignFetch, Failed(message))[i];
    assert c in multiset(merged);
    var k :| 0 <= k < |merged| && merged[k] == c;
    assert Filter([], Counts(CampaignKey(cs[k]))) == [];
  }

  /** After a successful fetch, each listed campaign is a fetched campaign with its
      verified total set from the fetched donations, and every fetched campaign is listed. */
  lemma CampaignListIsMergedFetch(campaignFetch: Fetch<Payload<Campaign>>, donationFetch: Fetch<Payload<Donation>>)
    requires campaignFetch.Fetched?
    ensures multiset(CampaignList(campaignFetch, donationFetch))
            == multiset(Merge(ListOf(campaignFetch.data), if donationFetch.Fetched? then ListOf(donationFetch.data) else []))
  {
    var ds := if donationFetch.Fetched? then ListOf(donationFetch.data) else [];
    ArraySortPermutes(Merge(ListOf(campaignFetch.data), ds), ActiveFirst);
  }

  // ---------------------------------------------------------------------------------
  // Progress and the raised amount
  // ---------------------------------------------------------------------------------

  /** `calculateProgress(raised, goalAmount)` */
  function CalculateProgress(raised: real, goalAmount: Option<real>): (r: real)
    ensures NumOrZero(goalAmount) == 0.0 ==> r == 0.0
    ensures r <= 100.0
    ensures NumOrZero(goalAmount) > 0.0 && raised >= 0.0 ==> r >= 0.0
    ensures NumOrZero(goalAmount) > 0.0 ==> (r == 100.0 <==> raised >= NumOrZero(goalAmount))
    ensures NumOrZero(goalAmount) > 0.0 && raised < NumOrZero(goalAmount) ==> r == raised * 100.0 / NumOrZero(goalAmount)
  {
    var goal := NumOrZero(goalAmount);
    if goal == 0.0 then 0.0
    else
      var p := raised / goal * 100.0;
      if p < 100.0 then p else 100.0
  }

  /** `getDisplayValues(campaign)`: the merged verified total when the campaign has one,
      else the first truthy of `totalVerifiedDonations` and `currentAmount`, else 0. */
  function GetDisplayValues(c: Campaign): (r: real)
    ensures c.calculatedVerifiedAmount.Some? ==> r == c.calculatedVerifiedAmount.value
    ensures c.calculatedVerifiedAmount.None? && NumOrZero(c.totalVerifiedDonations) != 0.0 ==>
              r == c.totalVerifiedDonations.value
    ensures c.calculatedVerifiedAmount.None? && NumOrZero(c.totalVerifiedDonations) == 0.0 ==>
              r == NumOrZero(c.currentAmount)
  {
    if c.calculatedVerifiedAmount.Some? then c.calculatedVerifiedAmount.value
    else if NumOrZero(c.totalVerifiedDonations) != 0.0 then c.totalVerifiedDonations.value
    else NumOrZero(c.currentAmount)
  }

  /** Every campaign on the list shows exactly its verified total: the backend's
      `totalVerifiedDonations` and `currentAmount` fallbacks are never reached. */
  lemma DisplayedIsVerifiedSum(cs: seq<Campaign>, ds: seq<Donation>, i: int)
    requires 0 <= i < |cs|
    ensures GetDisplayValues(Merge(cs, ds)[i]) == VerifiedSum(CampaignKey(cs[i]), ds)
  {
  }

  /** The progress bar on the list: for a positive goal and non-negative amounts, between
      0 and 100, and full exactly when the verified total reaches the goal. */
  lemma ListedProgress(c: Campaign, ds: seq<Donation>)
    requires NumOrZero(c.goalAmount) > 0.0
    requires forall i :: 0 <= i < |ds| ==> Amount(ds[i]) >= 0.0
    ensures 0.0 <= CalculateProgress(GetDisplayValues(WithVerifiedAmount(c, ds)), c.goalAmount) <= 100.0
    ensures (CalculateProgress(GetDisplayValues(WithVerifiedAmount(c, ds)), c.goalAmount) == 100.0) ==
            (VerifiedSum(CampaignKey(c), ds) >= NumOrZero(c.goalAmount))
  {
    VerifiedSumBounds(CampaignKey(c), ds);
  }

  /** A worked example: a goal of 1000 and donations of 400 (verified), 300 (pending) and
      200 (verified) raise 600, which is 60 percent. */
  lemma ProgressExample()
    ensures var c := Campaign(Some("c1"), None, "Food drive", "", Some(1000.0), NoDeadline, Missing, None, None, None);
            var d1 := Donation(Some("d1"), None, RawRef("c1"), None, Some(400.0), Some("Verified"),
                               None, None, None, None, None, None, None, None);
            var d2 := d1.(oid := Some("d2"), amount := Some(300.0), status := Some("Pending"));
            var d3 := d1.(oid := Some("d3"), amount := Some(200.0));
            GetDisplayValues(WithVerifiedAmount(c, [d1, d2, d3])) == 600.0
            && CalculateProgress(600.0, c.goalAmount) == 60.0
  {
    var d1 := Donation(Some("d1"), None, RawRef("c1"), None, Some(400.0), Some("Verified"),
                       None, None, None, None, None, None, None, None);
    var d2 := d1.(oid := Some("d2"), amount := Some(300.0), status := Some("Pending"));
    var d3 := d1.(oid := Some("d3"), amount := Some(200.0));
    var key := Str("c1");
    VerifiedSumSnoc(key, [], d1);
    VerifiedSumSnoc(key, [d1], d2);
    VerifiedSumSnoc(key, [d1, d2], d3);
    assert [] + [d1] == [d1] && [d1] + [d2] == [d1, d2] && [d1, d2] + [d3] == [d1, d2, d3];
  }

  // ---------------------------------------------------------------------------------
  // Expiry and the card
  // ---------------------------------------------------------------------------------

  /** `deadlineDate < today` once both are set to midnight: a day before today's. An invalid
      date compares false. */
  predicate DayBefore(day: Option<int>, today: int) {
    day.Some? && day.value < today
  }

  /** The day `new Date(null)` falls on: the epoch, 1 January 1970. */
  const EpochDay: int := 0

  /** `new Date(campaign.deadline)`: a missing deadline or text that is not a date gives an
      invalid date, and `null` the epoch. */
  function DeadlineDay(d: Deadline): (r: Option<int>)
    ensures r.None? <==> d.NoDeadline? || d.NotADate?
    ensures d.OnDay? ==> r == Some(d.day)
    ensures d.NullDeadline? ==> r == Some(EpochDay)
  {
    match d
    case OnDay(day) => Some(day)
    case NullDeadline => Some(EpochDay)
    case _ => None
  }

  /** The expiry test of the card and the details page. */
  predicate IsExpired(deadline: Deadline, today: int) {
    DayBefore(DeadlineDay(deadline), today)
  }

  /** A missing deadline or one that is not a date never expires; a `null` deadline has
      expired on every day after the epoch. */
  lemma ExpiryOfOddDeadlines(text: string, today: int)
    ensures !IsExpired(NoDeadline, today) && !IsExpired(NotADate(text), today)
    ensures IsExpired(NullDeadline, today) <==> today > EpochDay
  {
  }

  predicate IsEffectivelyActive(c: Campaign, today: int) {
    ShownActive(c) && !IsExpired(c.deadline, today)
  }

  /** The non-admin button's label. */
  function DonateLabel(c: Campaign, today: int): (r: string)
    ensures r == "Expired" <==> IsExpired(c.deadline, today)
    ensures r == "Donate Now" <==> IsEffectivelyActive(c, today)
    ensures r == "Closed" <==> ShownInactive(c) && !IsExpired(c.deadline, today)
  {
    if IsExpired(c.deadline, today) then "Expired"
    else if IsEffectivelyActive(c, today) then "Donate Now"
    else "Closed"
  }

  /** The corner badge: shown only when not effectively active. */
  function CardBadge(c: Campaign, today: int): (r: Option<string>)
    ensures r.None? <==> IsEffectivelyActive(c, today)
    ensures r == Some("Expired") <==> IsExpired(c.deadline, today)
    ensures r == Some("Inactive") <==> ShownInactive(c) && !IsExpired(c.deadline, today)
  {
    if !IsEffectivelyActive(c, today) then Some(if IsExpired(c.deadline, today) then "Expired" else "Inactive")
    else None
  }

  /** What a card's buttons offer: edit and delete for admins, a donate button otherwise. */
  datatype Actions = AdminActions(enabled: bool) | DonateButton(caption: string, enabled: bool)

  /** The parts of a card that carry logic. */
  datatype CardView = CardView(
    id: Option<string>,
    greyedOut: bool,
    badge: Option<string>,
    raised: Option<real>,
    progress: Option<real>,
    actions: Actions)

  function Card(c: Campaign, today: int, isAdmin: bool): (v: CardView)
    ensures !isAdmin ==> v.raised.None? && v.progress.None? && v.actions.DonateButton?
    ensures isAdmin ==> v.raised == Some(GetDisplayValues(c)) && v.actions.AdminActions?
    ensures v.progress.Some? ==> v.progress.value <= 100.0
    ensures v.greyedOut <==> !IsEffectivelyActive(c, today)
    ensures v.greyedOut <==> !v.actions.enabled
    ensures v.id == Or(c.oid, c.id) && v.badge == CardBadge(c, today)
    ensures !isAdmin ==> v.actions.caption == DonateLabel(c, today)
    ensures isAdmin ==> v.progress == Some(CalculateProgress(GetDisplayValues(c), c.goalAmount))
  {
    var active := IsEffectivelyActive(c, today);
    var raised := GetDisplayValues(c);
    CardView(
      Or(c.oid, c.id), !active, CardBadge(c, today),
      if isAdmin then Some(raised) else None,
      if isAdmin then Some(CalculateProgress(raised, c.goalAmount)) else None,
      if isAdmin then AdminActions(active) else DonateButton(DonateLabel(c, today), active))
  }

  /** The guard of the edit, delete and donate handlers: `!isActive && isActive !== undefined`. */
  predicate HandlerRefuses(c: Campaign) {
    c.isActive == Null || c.isActive == Flag(false)
  }

  /** `isActive: null` is shown as active, yet the handlers refuse it. */
  lemma NullActiveShownButRefused(c: Campaign, today: int)
    requires c.isActive == Null && !IsExpired(c.deadline, today)
    ensures IsEffectivelyActive(c, today) && HandlerRefuses(c)
  {
  }

  /** `handleViewDetails(id, isEffectiveActive)`: the route navigated to, if any. An absent
      id is written into the path as `undefined`. */
  function ViewDetailsTarget(id: Option<string>, effectivelyActive: bool): (r: Option<string>)
    ensures r.Some? <==> effectivelyActive
    ensures r.Some? && id.Some? ==> r.value == "/campaigns/" + id.value
    ensures r.Some? && id.None? ==> r.value == "/campaigns/undefined"
  {
    if !effectivelyActive then None
    else Some("/campaigns/" + (if id.Some? then id.value else "undefined"))
  }

  // ---------------------------------------------------------------------------------
  // The create/edit form
  // ---------------------------------------------------------------------------------

  const CampaignFields: set<string> := {"title", "description", "goalAmount", "deadline"}

  function EmptyCampaignForm(): (f: FormData)
    ensures f.Keys == CampaignFields
    ensures forall k :: k in f ==> f[k] == ""
  {
    map["title" := "", "description" := "", "goalAmount" := "", "deadline" := ""]
  }

  /** A parsed number that is at most 0. A NaN parse is no number and is not flagged. */
  predicate NotPositive(x: Option<real>) {
    x.Some? && x.value <= 0.0
  }

  /** The validator's verdict on the form, field by field. `parseNumber` is `parseFloat`
      (None for NaN) and `parseDay` reads an input date as a day number (None for an
      invalid date). */
  function CampaignFormErrors(f: FormData, today: int, parseNumber: string -> Option<real>, parseDay: string -> Option<int>): (r: Errors)
    requires CampaignFields <= f.Keys
    ensures r.Keys <= CampaignFields
    ensures "title" in r <==> IsBlank(f["title"])
    ensures "description" in r <==> IsBlank(f["description"])
    ensures "goalAmount" in r <==> f["goalAmount"] == "" || NotPositive(parseNumber(f["goalAmount"]))
    ensures "deadline" in r <==> f["deadline"] == "" || DayBefore(parseDay(f["deadline"]), today)
    ensures "deadline" in r && f["deadline"] != "" ==> r["deadline"] == "Please select a date today or later"
    ensures "deadline" in r && f["deadline"] == "" ==> r["deadline"] == "Deadline is required"
  {
    TrimEmptyIffBlank(f["title"]);
    TrimEmptyIffBlank(f["description"]);
    var withTitle: Errors := if Trim(f["title"]) == "" then map["title" := "Title is required"] else map[];
    var withDescription :=
      if Trim(f["description"]) == "" then withTitle["description" := "Description is required"] else withTitle;
    var withGoal :=
      if f["goalAmount"] == "" || NotPositive(parseNumber(f["goalAmount"]))
      then withDescription["goalAmount" := "Valid goal amount is required"] else withDescription;
    if f["deadline"] == "" then withGoal["deadline" := "Deadline is required"]
    else if DayBefore(parseDay(f["deadline"]), today) then withGoal["deadline" := "Please select a date today or later"]
    else withGoal
  }

  /** `validate()`: fills `newErrors` field by field. */
  method Validate(formData: FormData, today: int, parseNumber: string -> Option<real>, parseDay: string -> Option<int>)
    returns (newErrors: Errors)
    requires CampaignFields <= formData.Keys
    ensures newErrors == CampaignFormErrors(formData, today, parseNumber, parseDay)
  {
    newErrors := map[];
    if Trim(formData["title"]) == "" {
      newErrors := newErrors["title" := "Title is required"];
    }
    if Trim(formData["description"]) == "" {
      newErrors := newErrors["description" := "Description is required"];
    }
    if formData["goalAmount"] == "" || NotPositive(parseNumber(formData["goalAmount"])) {
      newErrors := newErrors["goalAmount" := "Valid goal amount is required"];
    }
    if formData["deadline"] == "" {
      newErrors := newErrors["deadline" := "Deadline is required"];
    } else {
      var deadlineDay := parseDay(formData["deadline"]);
      if DayBefore(deadlineDay, today) {
        newErrors := newErrors["deadline" := "Please select a date today or later"];
      }
    }
  }

  /** A filled-in form with a positive goal and a deadline from today on passes. */
  lemma ValidFormHasNoErrors(f: FormData, today: int, parseNumber: string -> Option<real>, parseDay: string -> Option<int>)
    requires CampaignFields <= f.Keys
    requires !IsBlank(f["title"]) && !IsBlank(f["description"])
    requires f["goalAmount"] != "" && !NotPositive(parseNumber(f["goalAmount"]))
    requires f["deadline"] != "" && !DayBefore(parseDay(f["deadline"]), today)
    ensures CampaignFormErrors(f, today, parseNumber, parseDay) == map[]
  {
    var r := CampaignFormErrors(f, today, parseNumber, parseDay);
    assert r.Keys == {};
  }

  /** What the submit sends. `goalAmount` is `parseFloat` of the input (None for NaN). */
  datatype CampaignPayload = CampaignPayload(title: string, description: string, goalAmount: Option<real>, deadline: string)

  datatype SaveRequest = Update(campaignId: Option<string>, payload: CampaignPayload) | Create(payload: CampaignPayload)

  /** The donation the donate modal sends. */
  datatype DonationRequest = DonationRequest(campaignId: Option<string>, amount: Option<real>, donationType: string, paymentMethod: string, campaign: string)

  const DonateFields: set<string> := {"amount", "donationType", "paymentMethod", "campaign"}

  function FreshDonateForm(): (f: FormData)
    ensures f.Keys == DonateFields
    ensures f["amount"] == ""
  {
    map["amount" := "", "donationType" := "Zakat", "paymentMethod" := "Online", "campaign" := "Food"]
  }

  /** The edit form's deadline: `campaign.deadline ? new Date(campaign.deadline)
      .toISOString().split('T')[0] : ''`, with `formatDay` for the last two steps. None
      where `toISOString` throws: a non-empty deadline that is not a date. */
  function FormattedDeadline(d: Deadline, formatDay: int -> string): (r: Option<string>)
    ensures r.None? <==> d.NotADate? && d.text != ""
    ensures d.OnDay? ==> r == Some(formatDay(d.day))
    ensures d.NoDeadline? || d.NullDeadline? || d == NotADate("") ==> r == Some("")
  {
    match d
    case OnDay(day) => Some(formatDay(day))
    case NotADate(text) => if text == "" then Some("") else None
    case _ => Some("")
  }

  /** A `null` deadline is shown as expired, yet the edit form receives it as an empty
      deadline, as if none were set. */
  lemma NullDeadlineExpiredButBlankInForm(formatDay: int -> string, today: int)
    requires today > EpochDay
    ensures IsExpired(NullDeadline, today) && FormattedDeadline(NullDeadline, formatDay) == Some("")
  {
  }

  // ---------------------------------------------------------------------------------
  // The page
  // ---------------------------------------------------------------------------------

  class CampaignsPage {
    var campaigns: seq<Campaign>
    var loading: bool
    var isModalOpen: bool
    var editingCampaign: Option<Campaign>
    var isDeleteModalOpen: bool
    var campaignToDelete: Option<Campaign>
    var isDonateModalOpen: bool
    var selectedCampaign: Option<Campaign>
    var formData: FormData
    var donateFormData: FormData
    var errors: Errors

    /** Both forms always hold their fields. */
    ghost predicate Valid()
      reads this
    {
      CampaignFields <= formData.Keys && DonateFields <= donateFormData.Keys
    }

    /** The create/edit modal: whether it is open and the campaign being edited. */
    ghost function EditModal(): (bool, Option<Campaign>)
      reads this
    {
      (isModalOpen, editingCampaign)
    }

    /** The delete confirmation: whether it is open and the campaign staged. */
    ghost function DeleteModal(): (bool, Option<Campaign>)
      reads this
    {
      (isDeleteModalOpen, campaignToDelete)
    }

    /** The donate modal: whether it is open and the campaign selected. */
    ghost function DonateModal(): (bool, Option<Campaign>)
      reads this
    {
      (isDonateModalOpen, selectedCampaign)
    }

    constructor ()
      ensures Valid()
      ensures campaigns == [] && loading && errors == map[]
      ensures formData == EmptyCampaignForm() && donateFormData == FreshDonateForm()
      ensures !isModalOpen && !isDeleteModalOpen && !isDonateModalOpen
      ensures editingCampaign.None? && campaignToDelete.None? && selectedCampaign.None?
    {
      campaigns := [];
      loading := true;
      isModalOpen, isDeleteModalOpen, isDonateModalOpen := false, false, false;
      editingCampaign, campaignToDelete, selectedCampaign := None, None, None;
      formData := EmptyCampaignForm();
      donateFormData := FreshDonateForm();
      errors := map[];
    }

    /** `fetchCampaignsAndDonations()`: the donation fetch is attempted for every role, and
        its failure only leaves `allDonations` empty. */
    method FetchCampaignsAndDonations(campaignFetch: Fetch<Payload<Campaign>>, donationFetch: Fetch<Payload<Donation>>)
      requires Valid()
      modifies this
      ensures Valid()
      ensures campaigns == CampaignList(campaignFetch, donationFetch)
      ensures !loading
      ensures formData == old(formData) && donateFormData == old(donateFormData) && errors == old(errors)
      ensures isModalOpen == old(isModalOpen) && isDeleteModalOpen == old(isDeleteModalOpen)
      ensures isDonateModalOpen == old(isDonateModalOpen)
      ensures editingCampaign == old(editingCampaign) && campaignToDelete == old(campaignToDelete)
      ensures selectedCampaign == old(selectedCampaign)
    {
      loading := true;
      if campaignFetch.Failed? {
        campaigns := [];
      } else {
        var fetchedCampaigns := ListOf(campaignFetch.data);
        var allDonations: seq<Donation> := [];
        if donationFetch.Fetched? {
          allDonations := ListOf(donationFetch.data);
        }
        var processed := Merge(fetchedCampaigns, allDonations);
        campaigns := ArraySort(processed, ActiveFirst);
      }
      loading := false;
    }

    method HandleOpenCreateModal()
      requires Valid()
      modifies this
      ensures editingCampaign.None? && formData == EmptyCampaignForm() && errors == map[] && isModalOpen
      ensures campaigns == old(campaigns) && donateFormData == old(donateFormData) && loading == old(loading)
      ensures DeleteModal() == old(DeleteModal()) && DonateModal() == old(DonateModal())
      ensures Valid()
    {
      editingCampaign := None;
      formData := EmptyCampaignForm();
      errors := map[];
      isModalOpen := true;
    }

    /** `handleOpenEditModal(campaign)`. `formatDay` writes a day as the date input's text
        and `formatNumber` is `toString`. Once `editingCampaign` is set, two things throw and
        end the handler: `toISOString` on a deadline that is not a date, and `toString` on a
        missing goal. */
    method HandleOpenEditModal(c: Campaign, formatDay: int -> string, formatNumber: real -> string)
      requires Valid()
      modifies this
      ensures Valid()
      ensures HandlerRefuses(c) ==>
                editingCampaign == old(editingCampaign) && formData == old(formData)
                && errors == old(errors) && isModalOpen == old(isModalOpen)
      ensures !HandlerRefuses(c) ==> editingCampaign == Some(c)
      ensures var date := FormattedDeadline(c.deadline, formatDay);
              !HandlerRefuses(c) && date.Some? && c.goalAmount.Some? ==>
                formData == map["title" := c.title, "description" := c.description,
                                 "goalAmount" := formatNumber(c.goalAmount.value), "deadline" := date.value]
                && errors == map[] && isModalOpen
      ensures var date := FormattedDeadline(c.deadline, formatDay);
              !HandlerRefuses(c) && (date.None? || c.goalAmount.None?) ==>
                formData == old(formData) && errors == old(errors) && isModalOpen == old(isModalOpen)
      ensures campaigns == old(campaigns) && donateFormData == old(donateFormData) && loading == old(loading)
      ensures DeleteModal() == old(DeleteModal()) && DonateModal() == old(DonateModal())
    {
      if HandlerRefuses(c) {
        return;
      }
      editingCampaign := Some(c);
      var formattedDate := FormattedDeadline(c.deadline, formatDay);
      if formattedDate.None? || c.goalAmount.None? {
        return;
      }
      formData := map["title" := c.title, "description" := c.description,
                      "goalAmount" := formatNumber(c.goalAmount.value), "deadline" := formattedDate.value];
      errors := map[];
      isModalOpen := true;
    }

    /** `handleChange(e)` */
    method HandleChange(name: string, value: string)
      requires Valid()
      modifies this
      ensures Valid()
      ensures (formData, errors) == ChangeField(old(formData), old(errors), name, value)
      ensures campaigns == old(campaigns) && donateFormData == old(donateFormData) && loading == old(loading)
      ensures EditModal() == old(EditModal()) && DeleteModal() == old(DeleteModal()) && DonateModal() == old(DonateModal())
    {
      formData, errors := ChangeField(formData, errors, name, value).0, ChangeField(formData, errors, name, value).1;
    }

    /** `handleDonateChange(e)`: no error bookkeeping. */
    method HandleDonateChange(name: string, value: string)
      requires Valid()
      modifies this
      ensures Valid()
      ensures donateFormData == old(donateFormData)[name := value]
      ensures formData == old(formData) && errors == old(errors) && campaigns == old(campaigns) && loading == old(loading)
      ensures EditModal() == old(EditModal()) && DeleteModal() == old(DeleteModal()) && DonateModal() == old(DonateModal())
    {
      donateFormData := donateFormData[name := value];
    }

    /** `handleSubmit(e)`: the request sent, if any. `saved` is whether the create or update
        call succeeded; the list is then fetched again with the two given outcomes. */
    method HandleSubmit(today: int, parseNumber: string -> Option<real>, parseDay: string -> Option<int>,
                        saved: bool, campaignFetch: Fetch<Payload<Campaign>>, donationFetch: Fetch<Payload<Donation>>)
      returns (request: Option<SaveRequest>)
      requires Valid()
      modifies this
      ensures Valid()
      ensures var verdict := CampaignFormErrors(old(formData), today, parseNumber, parseDay);
              (verdict != map[] <==> request.None?)
              && (verdict != map[] ==> errors == verdict && formData == old(formData) && campaigns == old(campaigns)
                                       && EditModal() == old(EditModal()) && loading == old(loading))
      ensures request.Some? ==>
                request.value.payload == CampaignPayload(old(formData)["title"], old(formData)["description"],
                                parseNumber(old(formData)["goalAmount"]), old(formData)["deadline"])
      ensures request.Some? ==> (request.value.Update? <==> old(editingCampaign).Some?)
      ensures request.Some? && request.value.Update? ==>
                request.value.campaignId == Or(old(editingCampaign).value.oid, old(editingCampaign).value.id)
      ensures request.Some? && saved ==>
                campaigns == CampaignList(campaignFetch, donationFetch) && !isModalOpen
                && formData == EmptyCampaignForm() && editingCampaign.None? && errors == old(errors)
      ensures request.Some? && !saved ==>
                errors == map["submit" := "Failed to save campaign. Please try again."]
                && campaigns == old(campaigns) && formData == old(formData) && EditModal() == old(EditModal())
                && loading == old(loading)
      ensures request.Some? && saved ==> !loading
      ensures donateFormData == old(donateFormData)
      ensures DeleteModal() == old(DeleteModal()) && DonateModal() == old(DonateModal())
    {
      var validationErrors := Validate(formData, today, parseNumber, parseDay);
      if validationErrors != map[] {
        errors := validationErrors;
        return None;
      }
      var payload := CampaignPayload(formData["title"], formData["description"],
                                     parseNumber(formData["goalAmount"]), formData["deadline"]);
      if editingCampaign.Some? {
        request := Some(Update(Or(editingCampaign.value.oid, editingCampaign.value.id), payload));
      } else {
        request := Some(Create(payload));
      }
      AfterSave(saved, campaignFetch, donationFetch);
    }

    /** The rest of `handleSubmit`'s `try` once the request is sent: on success the list is
        fetched again and the modal closes on an empty form; a thrown error stores the submit
        message. */
    method AfterSave(saved: bool, campaignFetch: Fetch<Payload<Campaign>>, donationFetch: Fetch<Payload<Donation>>)
      requires Valid()
      modifies this
      ensures Valid()
      ensures saved ==>
                campaigns == CampaignList(campaignFetch, donationFetch) && !isModalOpen && !loading
                && formData == EmptyCampaignForm() && editingCampaign.None? && errors == old(errors)
      ensures !saved ==>
                errors == map["submit" := "Failed to save campaign. Please try again."]
                && campaigns == old(campaigns) && formData == old(formData) && EditModal() == old(EditModal())
                && loading == old(loading)
      ensures donateFormData == old(donateFormData)
      ensures DeleteModal() == old(DeleteModal()) && DonateModal() == old(DonateModal())
    {
      if !saved {
        errors := map["submit" := "Failed to save campaign. Please try again."];
        return;
      }
      FetchCampaignsAndDonations(campaignFetch, donationFetch);
      isModalOpen := false;
      formData := EmptyCampaignForm();
      editingCampaign := None;
    }

    /** `handleDelete(campaign)` */
    method HandleDelete(c: Campaign)
      requires Valid()
      modifies this
      ensures Valid()
      ensures HandlerRefuses(c) ==> campaignToDelete == old(campaignToDelete) && isDeleteModalOpen == old(isDeleteModalOpen)
      ensures !HandlerRefuses(c) ==> campaignToDelete == Some(c) && isDeleteModalOpen
      ensures campaigns == old(campaigns) && formData == old(formData) && donateFormData == old(donateFormData)
      ensures errors == old(errors) && loading == old(loading)
      ensures EditModal() == old(EditModal()) && DonateModal() == old(DonateModal())
    {
      if HandlerRefuses(c) {
        return;
      }
      campaignToDelete := Some(c);
      isDeleteModalOpen := true;
    }

    /** `confirmDelete()`: the id sent for deletion, if any. */
    method ConfirmDelete(deleted: bool, campaignFetch: Fetch<Payload<Campaign>>, donationFetch: Fetch<Payload<Donation>>)
      returns (deletedId: Option<Option<string>>)
      requires Valid()
      modifies this
      ensures Valid()
      ensures old(campaignToDelete).None? ==>
                deletedId.None? && campaigns == old(campaigns) && DeleteModal() == old(DeleteModal())
      ensures old(campaignToDelete).Some? ==>
                deletedId == Some(Or(old(campaignToDelete).value.oid, old(campaignToDelete).value.id))
      ensures old(campaignToDelete).Some? && deleted ==>
                campaigns == CampaignList(campaignFetch, donationFetch) && !isDeleteModalOpen && campaignToDelete.None?
      ensures old(campaignToDelete).Some? && !deleted ==>
                campaigns == old(campaigns) && DeleteModal() == old(DeleteModal())
      ensures old(campaignToDelete).Some? && deleted ==> !loading
      ensures !(old(campaignToDelete).Some? && deleted) ==> loading == old(loading)
      ensures formData == old(formData) && donateFormData == old(donateFormData) && errors == old(errors)
      ensures EditModal() == old(EditModal()) && DonateModal() == old(DonateModal())
    {
      if campaignToDelete.None? {
        return None;
      }
      var c := campaignToDelete.value;
      deletedId := Some(Or(c.oid, c.id));
      if !deleted {
        return;
      }
      FetchCampaignsAndDonations(campaignFetch, donationFetch);
      isDeleteModalOpen := false;
      campaignToDelete := None;
    }

    /** `handleDonate(campaign)` */
    method HandleDonate(c: Campaign)
      requires Valid()
      modifies this
      ensures Valid()
      ensures HandlerRefuses(c) ==>
                selectedCampaign == old(selectedCampaign)
                && donateFormData == old(donateFormData) && isDonateModalOpen == old(isDonateModalOpen)
      ensures !HandlerRefuses(c) ==> selectedCampaign == Some(c) && donateFormData == FreshDonateForm() && isDonateModalOpen
      ensures campaigns == old(campaigns) && formData == old(formData) && errors == old(errors)
      ensures loading == old(loading)
      ensures EditModal() == old(EditModal()) && DeleteModal() == old(DeleteModal())
    {
      if HandlerRefuses(c) {
        return;
      }
      selectedCampaign := Some(c);
      donateFormData := FreshDonateForm();
      isDonateModalOpen := true;
    }

    /** `handleDonateSubmit(e)`: the donation sent, if any. `created` is whether the call
        succeeded. */
    method HandleDonateSubmit(parseNumber: string -> Option<real>, created: bool,
                              campaignFetch: Fetch<Payload<Campaign>>, donationFetch: Fetch<Payload<Donation>>)
      returns (request: Option<DonationRequest>)
      requires Valid()
      modifies this
      ensures Valid()
      ensures old(selectedCampaign).None? ==>
                request.None? && campaigns == old(campaigns) && DonateModal() == old(DonateModal())
      ensures old(selectedCampaign).Some? ==>
                request == Some(DonationRequest(
                  Or(old(selectedCampaign).value.oid, old(selectedCampaign).value.id),
                  parseNumber(old(donateFormData)["amount"]), old(donateFormData)["donationType"],
                  old(donateFormData)["paymentMethod"], old(donateFormData)["campaign"]))
      ensures old(selectedCampaign).Some? && created ==>
                !isDonateModalOpen && selectedCampaign.None? && campaigns == CampaignList(campaignFetch, donationFetch)
      ensures old(selectedCampaign).Some? && !created ==>
                DonateModal() == old(DonateModal()) && campaigns == old(campaigns)
      ensures old(selectedCampaign).Some? && created ==> !loading
      ensures !(old(selectedCampaign).Some? && created) ==> loading == old(loading)
      ensures formData == old(formData) && donateFormData == old(donateFormData) && errors == old(errors)
      ensures EditModal() == old(EditModal()) && DeleteModal() == old(DeleteModal())
    {
      if selectedCampaign.None? {
        return None;
      }
      var c := selectedCampaign.value;
      request := Some(DonationRequest(Or(c.oid, c.id), parseNumber(donateFormData["amount"]),
                                      donateFormData["donationType"], donateFormData["paymentMethod"],
                                      donateFormData["campaign"]));
      if !created {
        return;
      }
      isDonateModalOpen := false;
      selectedCampaign := None;
      FetchCampaignsAndDonations(campaignFetch, donationFetch);
    }
  }
}
