/** The campaign details page: the campaign record taken from the response, the raised
    amount (the backend's `currentAmount`, replaced for admins by the verified total of
    the donations naming the route's id), the progress shown, and the expiry badge. */
module CampaignDetails {
  import opened JsCore
  import opened Records
  import Campaigns

  /** The single-campaign response: the campaign itself, or an object holding it under
      `campaign`. */
  datatype CampaignResponse = Direct(c: Campaign) | Envelope(inner: Option<Campaign>)

  /** An envelope without a `campaign` read as a campaign: every property is absent. */
  const EnvelopeAsCampaign: Campaign :=
    Campaign(None, None, "", "", None, NoDeadline, Missing, None, None, None)

  /** `data.campaign || data` */
  function CampaignOf(data: CampaignResponse): (c: Campaign)
    ensures data.Direct? ==> c == data.c
    ensures data.Envelope? && data.inner.Some? ==> c == data.inner.value
    ensures data == Envelope(None) ==> NumOrZero(c.currentAmount) == 0.0 && c.goalAmount.None?
  {
    match data
    case Direct(c) => c
    case Envelope(Some(c)) => c
    case Envelope(None) => EnvelopeAsCampaign
  }

  /** The raised amount `fetchData` stores: `currentAmount || 0`, replaced for an admin
      whose donation fetch succeeds by the sum of `parseFloat(amount) || 0` over the
      verified donations whose resolved campaign id is the route's id. */
  function RaisedAmount(c: Campaign, routeId: string, isAdmin: bool, donationFetch: Fetch<Payload<Donation>>): (r: real)
    ensures !isAdmin ==> r == NumOrZero(c.currentAmount)
    ensures isAdmin && donationFetch.Failed? ==> r == NumOrZero(c.currentAmount)
    ensures isAdmin && donationFetch.Fetched? ==>
              r == SumOf(ListOf(donationFetch.data), Campaigns.Counted(Str(routeId)))
  {
    if isAdmin && donationFetch.Fetched? then
      var ds := ListOf(donationFetch.data);
      Campaigns.VerifiedSumIsCountedSum(Str(routeId), ds);
      Campaigns.VerifiedSum(Str(routeId), ds)
    else NumOrZero(c.currentAmount)
  }

  /** The details page and the list agree: for the id the list navigates to
      (`_id || id`), an admin sees on the details page the amount the list shows for that
      campaign, given the same donations. */
  lemma AdminRaisedAgreesWithList(c: Campaign, routeId: string, ds: seq<Donation>)
    requires CampaignKey(c) == Str(routeId)
    ensures RaisedAmount(c, routeId, true, Fetched(Bare(ds)))
            == Campaigns.GetDisplayValues(Campaigns.WithVerifiedAmount(c, ds))
  {
  }

  /** The details page matches on the route's id, not on the campaign's own `_id`: when
      the page is reached under the campaign's `id` while it also has a different `_id`,
      the donations that name the `_id` are not counted. */
  lemma RouteIdIsWhatCounts(c: Campaign, routeId: string, d: Donation)
    requires Truthy(c.oid) && c.oid.value != routeId
    requires Campaigns.CountsToward(CampaignKey(c), d)
    ensures !Campaigns.CountsToward(Str(routeId), d)
    ensures RaisedAmount(c, routeId, true, Fetched(Bare([d]))) == 0.0
  {
    Campaigns.VerifiedSumSnoc(Str(routeId), [], d);
    assert [] + [d] == [d];
  }

  /** `Math.round(x)`: the nearest integer, halves rounded up. */
  function Round(x: real): (n: int)
    ensures x - 0.5 < n as real <= x + 0.5
  {
    (x + 0.5).Floor
  }

  /** What the page renders. */
  datatype View =
    | LoadingView
    | ErrorView(message: string)
    | DetailsView(badge: Option<string>, dimmed: bool, raised: Option<real>, percent: Option<int>)

  /** The detail panel of a loaded campaign. */
  function Details(c: Campaign, calculatedRaised: real, today: int, isAdmin: bool): (v: View)
    ensures v.DetailsView?
    ensures v.badge.None? <==> Campaigns.IsEffectivelyActive(c, today)
    ensures v.badge == Some("Expired Campaign") <==> Campaigns.IsExpired(c.deadline, today)
    ensures v.badge == Some("Inactive Campaign") <==> Campaigns.ShownInactive(c) && !Campaigns.IsExpired(c.deadline, today)
    ensures v.dimmed == v.badge.Some?
    ensures (v.raised.Some? <==> isAdmin) && (v.percent.Some? <==> isAdmin)
    ensures isAdmin ==> v.raised.value == calculatedRaised && v.percent.value <= 100
    ensures isAdmin && calculatedRaised >= 0.0 && NumOrZero(c.goalAmount) >= 0.0 ==> v.percent.value >= 0
    ensures isAdmin && NumOrZero(c.goalAmount) == 0.0 ==> v.percent.value == 0
    ensures isAdmin ==> v.percent == Some(Round(Campaigns.CalculateProgress(calculatedRaised, c.goalAmount)))
  {
    var active := Campaigns.IsEffectivelyActive(c, today);
    var badge := if active then None
                 else Some(if Campaigns.IsExpired(c.deadline, today) then "Expired Campaign" else "Inactive Campaign");
    var progress := Campaigns.CalculateProgress(calculatedRaised, c.goalAmount);
    DetailsView(badge, !active,
                if isAdmin then Some(calculatedRaised) else None,
                if isAdmin then Some(Round(progress)) else None)
  }

  /** The render: loading first, then the error or not-found panel, then the details. */
  function Render(loading: bool, error: Option<string>, campaign: Option<Campaign>, calculatedRaised: real,
                  today: int, isAdmin: bool): (v: View)
    ensures loading <==> v == LoadingView
    ensures !loading && Truthy(error) ==> v == ErrorView(error.value)
    ensures !loading && !Truthy(error) && campaign.None? ==> v == ErrorView("Campaign not found")
    ensures v.DetailsView? <==> !loading && !Truthy(error) && campaign.Some?
    ensures v.DetailsView? ==> v == Details(campaign.value, calculatedRaised, today, isAdmin)
  {
    if loading then LoadingView
    else if Truthy(error) then ErrorView(error.value)
    else if campaign.None? then ErrorView("Campaign not found")
    else Details(campaign.value, calculatedRaised, today, isAdmin)
  }

  class CampaignDetailsPage {
    var campaign: Option<Campaign>
    var loading: bool
    var error: Option<string>
    var calculatedRaised: real

    constructor ()
      ensures campaign.None? && loading && error.None? && calculatedRaised == 0.0
    {
      campaign := None;
      loading := true;
      error := None;
      calculatedRaised := 0.0;
    }

    /** The effect on `[id, isAdmin]`: nothing for an empty route id; otherwise the
        campaign fetch, then (for admins) the donation fetch. The error is never cleared. */
    method FetchData(routeId: string, isAdmin: bool, campaignFetch: Fetch<CampaignResponse>,
                     donationFetch: Fetch<Payload<Donation>>)
      modifies this
      ensures routeId == "" ==>
                campaign == old(campaign) && loading == old(loading) && error == old(error)
                && calculatedRaised == old(calculatedRaised)
      ensures routeId != "" ==> !loading
      ensures routeId != "" && campaignFetch.Failed? ==>
                error == Some("Failed to load campaign details. Please try again later.")
                && campaign == old(campaign) && calculatedRaised == old(calculatedRaised)
      ensures routeId != "" && campaignFetch.Fetched? ==>
                campaign == Some(CampaignOf(campaignFetch.data)) && error == old(error)
                && calculatedRaised == RaisedAmount(CampaignOf(campaignFetch.data), routeId, isAdmin, donationFetch)
    {
      if routeId == "" {
        return;
      }
      loading := true;
      if campaignFetch.Failed? {
        error := Some("Failed to load campaign details. Please try again later.");
      } else {
        var campaignObj := CampaignOf(campaignFetch.data);
        campaign := Some(campaignObj);
        var raised := NumOrZero(campaignObj.currentAmount);
        if isAdmin {
          if donationFetch.Fetched? {
            var allDonations := ListOf(donationFetch.data);
            raised := Campaigns.VerifiedSum(Str(routeId), allDonations);
          }
        }
        calculatedRaised := raised;
      }
      loading := false;
    }
  }

  /** A first visit whose campaign fetch fails shows the error panel with the fetch's
      message, never data. */
  method FailedFirstVisitShowsError(routeId: string, isAdmin: bool, today: int, message: Option<string>,
                                    donationFetch: Fetch<Payload<Donation>>)
    returns (v: View)
    requires routeId != ""
    ensures v == ErrorView("Failed to load campaign details. Please try again later.")
  {
    var page := new CampaignDetailsPage();
    page.FetchData(routeId, isAdmin, Failed(message), donationFetch);
    v := Render(page.loading, page.error, page.campaign, page.calculatedRaised, today, isAdmin);
  }
}
