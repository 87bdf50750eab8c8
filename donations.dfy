/** The donations page: the four-filter pipeline, the local status patch after a
    verification, the column headers and the per-row fallbacks and action. */
module Donations {
  import opened JsCore
  import opened Records
  import Campaigns
  import Dashboard

  // ---------------------------------------------------------------------------------
  // Filters
  // ---------------------------------------------------------------------------------

  /** The four filter inputs; the empty string means "not set". */
  datatype Filters = Filters(searchTerm: string, statusFilter: string, typeFilter: string, paymentFilter: string)

  const NoFilters := Filters("", "", "", "")

  /** The search test: the lower-cased term occurs in the lower-cased donor name
      (`user.name || donorName || ''`) or donor email (`user.email || ''`). */
  predicate MatchesSearch(d: Donation, term: string) {
    Contains(ToLower(OrElse(DonorNameOf(d), "")), ToLower(term))
    || Contains(ToLower(OrElse(DonorEmailOf(d), "")), ToLower(term))
  }

  /** Search runs only for admins with a non-empty term. */
  predicate PassesSearch(d: Donation, isAdmin: bool, f: Filters) {
    isAdmin && f.searchTerm != "" ==> MatchesSearch(d, f.searchTerm)
  }

  /** The status filter runs for every role. */
  predicate PassesStatus(d: Donation, f: Filters) {
    f.statusFilter != "" ==> d.status == Some(f.statusFilter)
  }

  /** The type filter runs only for admins. */
  predicate PassesType(d: Donation, isAdmin: bool, f: Filters) {
    isAdmin && f.typeFilter != "" ==> d.donationType == Some(f.typeFilter)
  }

  /** The payment filter runs only for admins. */
  predicate PassesPayment(d: Donation, isAdmin: bool, f: Filters) {
    isAdmin && f.paymentFilter != "" ==> d.paymentMethod == Some(f.paymentFilter)
  }

  /** A donation is listed when it passes every filter in force. */
  predicate Keep(d: Donation, isAdmin: bool, f: Filters) {
    PassesSearch(d, isAdmin, f) && PassesStatus(d, f) && PassesType(d, isAdmin, f) && PassesPayment(d, isAdmin, f)
  }

  function KeepPass(isAdmin: bool, f: Filters): Donation -> bool {
    d => Keep(d, isAdmin, f)
  }

  /** What the filter effect stores: the donations that pass, in their order. */
  function Filtered(ds: seq<Donation>, isAdmin: bool, f: Filters): seq<Donation> {
    Filter(ds, KeepPass(isAdmin, f))
  }

  // The callbacks of the individual passes, and what has been applied after each pass.

  function SearchPass(term: string): Donation -> bool {
    d => MatchesSearch(d, term)
  }

  function StatusPass(status: string): Donation -> bool {
    (d: Donation) => d.status == Some(status)
  }

  function TypePass(t: string): Donation -> bool {
    (d: Donation) => d.donationType == Some(t)
  }

  function PaymentPass(p: string): Donation -> bool {
    (d: Donation) => d.paymentMethod == Some(p)
  }

  function AfterSearch(isAdmin: bool, f: Filters): Donation -> bool {
    d => PassesSearch(d, isAdmin, f)
  }

  function AfterStatus(isAdmin: bool, f: Filters): Donation -> bool {
    d => PassesSearch(d, isAdmin, f) && PassesStatus(d, f)
  }

  function AfterType(isAdmin: bool, f: Filters): Donation -> bool {
    d => PassesSearch(d, isAdmin, f) && PassesStatus(d, f) && PassesType(d, isAdmin, f)
  }

  /** The filter effect: `filtered` starts as a copy and each filter in force replaces it
      with a filtered copy. */
  method ApplyFilters(donations: seq<Donation>, isAdmin: bool, f: Filters) returns (filtered: seq<Donation>)
    ensures filtered == Filtered(donations, isAdmin, f)
  {
    filtered := donations;
    if isAdmin && f.searchTerm != "" {
      filtered := Filter(filtered, SearchPass(f.searchTerm));
      FilterExt(donations, SearchPass(f.searchTerm), AfterSearch(isAdmin, f));
    } else {
      FilterKeepsAll(donations, AfterSearch(isAdmin, f));
    }
    if f.statusFilter != "" {
      FilterFusion(donations, AfterSearch(isAdmin, f), StatusPass(f.statusFilter), AfterStatus(isAdmin, f));
      filtered := Filter(filtered, StatusPass(f.statusFilter));
    } else {
      FilterExt(donations, AfterSearch(isAdmin, f), AfterStatus(isAdmin, f));
    }
    if isAdmin {
      if f.typeFilter != "" {
        FilterFusion(donations, AfterStatus(isAdmin, f), TypePass(f.typeFilter), AfterType(isAdmin, f));
        filtered := Filter(filtered, TypePass(f.typeFilter));
      } else {
        FilterExt(donations, AfterStatus(isAdmin, f), AfterType(isAdmin, f));
      }
      if f.paymentFilter != "" {
        FilterFusion(donations, AfterType(isAdmin, f), PaymentPass(f.paymentFilter), KeepPass(isAdmin, f));
        filtered := Filter(filtered, PaymentPass(f.paymentFilter));
      } else {
        FilterExt(donations, AfterType(isAdmin, f), KeepPass(isAdmin, f));
      }
    } else {
      FilterExt(donations, AfterStatus(isAdmin, f), KeepPass(isAdmin, f));
    }
  }

  /** Filtering only removes: the listed donations are exactly those that pass, in their
      original order. */
  lemma FilteredIsSubsequence(ds: seq<Donation>, isAdmin: bool, f: Filters, d: Donation)
    ensures IsSubsequence(Filtered(ds, isAdmin, f), ds)
    ensures d in Filtered(ds, isAdmin, f) <==> d in ds && Keep(d, isAdmin, f)
  {
    FilterIsSubsequence(ds, KeepPass(isAdmin, f));
    FilterMembers(ds, KeepPass(isAdmin, f), d);
  }

  /** With no filter set, every donation is listed. */
  lemma NoFiltersListAll(ds: seq<Donation>, isAdmin: bool)
    ensures Filtered(ds, isAdmin, NoFilters) == ds
  {
    FilterKeepsAll(ds, KeepPass(isAdmin, NoFilters));
  }

  /** For a non-admin only the status filter has any effect. */
  lemma NonAdminOnlyStatusFilters(ds: seq<Donation>, f: Filters)
    ensures Filtered(ds, false, f) == Filtered(ds, false, NoFilters.(statusFilter := f.statusFilter))
  {
    FilterExt(ds, KeepPass(false, f), KeepPass(false, NoFilters.(statusFilter := f.statusFilter)));
  }

  lemma LowerOfUpper(s: string)
    ensures ToLower(ToUpper(s)) == ToLower(s)
  {
    forall i | 0 <= i < |s| ensures ToLower(ToUpper(s))[i] == ToLower(s)[i] {
      assert ToUpper(s)[i] == UpperChar(s[i]);
    }
  }

  /** The search ignores the case of the term. */
  lemma SearchIgnoresCase(d: Donation, term: string)
    ensures MatchesSearch(d, ToUpper(term)) == MatchesSearch(d, term)
  {
    LowerOfUpper(term);
  }

  // ---------------------------------------------------------------------------------
  // Verification
  // ---------------------------------------------------------------------------------

  /** `d._id === id || d.id === id`: an absent id on both sides counts as equal, as
      `undefined === undefined` does. */
  predicate IdMatches(d: Donation, id: Option<string>) {
    d.oid == id || d.id == id
  }

  /** `handleVerify`'s local patch after a successful update. */
  function MarkVerified(ds: seq<Donation>, id: Option<string>): (r: seq<Donation>)
    ensures |r| == |ds|
    ensures forall i :: 0 <= i < |ds| && IdMatches(ds[i], id) ==> r[i] == ds[i].(status := Some("Verified"))
    ensures forall i :: 0 <= i < |ds| && !IdMatches(ds[i], id) ==> r[i] == ds[i]
  {
    seq(|ds|, i requires 0 <= i < |ds| => if IdMatches(ds[i], id) then ds[i].(status := Some("Verified")) else ds[i])
  }

  /** Verifying the same id twice changes nothing the second time. */
  lemma MarkVerifiedIdempotent(ds: seq<Donation>, id: Option<string>)
    ensures MarkVerified(MarkVerified(ds, id), id) == MarkVerified(ds, id)
  {
  }

  /** After the patch every matching donation passes a `'Verified'` status filter. */
  lemma MarkedPassVerifiedFilter(ds: seq<Donation>, id: Option<string>, i: int)
    requires 0 <= i < |ds| && IdMatches(ds[i], id)
    ensures PassesStatus(MarkVerified(ds, id)[i], NoFilters.(statusFilter := "Verified"))
  {
  }

  /** Verifying never lowers any campaign's verified total (amounts being non-negative). */
  lemma MarkVerifiedRaisesVerifiedTotals(ds: seq<Donation>, id: Option<string>, key: Key)
    requires forall i :: 0 <= i < |ds| ==> Amount(ds[i]) >= 0.0
    ensures Campaigns.VerifiedSum(key, ds) <= Campaigns.VerifiedSum(key, MarkVerified(ds, id))
  {
    var r := MarkVerified(ds, id);
    Campaigns.VerifiedSumIsCountedSum(key, ds);
    Campaigns.VerifiedSumIsCountedSum(key, r);
    SumOfMonotone(ds, r, Campaigns.Counted(key));
  }

  /** Verifying leaves the dashboard's overall total unchanged. */
  lemma MarkVerifiedKeepsTotal(ds: seq<Donation>, id: Option<string>)
    ensures Dashboard.Totals(MarkVerified(ds, id)).totalDonations == Dashboard.Totals(ds).totalDonations
  {
    var r := MarkVerified(ds, id);
    SumOfMonotone(ds, r, Amount);
    SumOfMonotone(r, ds, Amount);
  }

  // ---------------------------------------------------------------------------------
  // Table
  // ---------------------------------------------------------------------------------

  function TableHeaders(isAdmin: bool): (h: seq<string>)
    ensures isAdmin ==> |h| == 8 && h[1] == "Donor Name" && h[7] == "Action"
    ensures !isAdmin ==> |h| == 6 && "Donor Name" !in h && "Action" !in h
    ensures isAdmin ==> h[..1] + h[2..7] == TableHeaders(false)
  {
    if isAdmin then ["Date", "Donor Name", "Campaign", "Amount", "Status", "Type", "Payment", "Action"]
    else ["Date", "Campaign", "Amount", "Status", "Type", "Payment"]
  }

  /** The admin's action cell. */
  datatype Action = VerifyButton(target: Option<string>) | VerifiedTag | NoAction

  function ActionFor(d: Donation): (a: Action)
    ensures a.VerifyButton? <==> d.status == Some("Pending")
    ensures a == VerifiedTag <==> d.status == Some("Verified")
    ensures a.VerifyButton? ==> a.target == DonationId(d)
  {
    if d.status == Some("Pending") then VerifyButton(DonationId(d))
    else if d.status == Some("Verified") then VerifiedTag
    else NoAction
  }

  /** The cells of a row that carry logic. The campaign cell has no default. */
  datatype Row = Row(donor: Option<string>, email: Option<string>, campaign: Option<string>,
                     donationType: Option<string>, payment: Option<string>, action: Option<Action>)

  function DonationRow(d: Donation, isAdmin: bool): (r: Row)
    ensures !isAdmin ==> r.donor.None? && r.email.None? && r.action.None?
    ensures isAdmin ==> r.donor == Some(OrElse(DonorNameOf(d), "Anonymous")) && r.action == Some(ActionFor(d))
    ensures isAdmin ==> r.email == DonorEmailOf(d)
    ensures r.campaign == CampaignTitleOf(d)
    ensures r.donationType == TypeOf(d) && r.payment == PaymentOf(d)
  {
    Row(if isAdmin then Some(OrElse(DonorNameOf(d), "Anonymous")) else None,
        if isAdmin then DonorEmailOf(d) else None,
        CampaignTitleOf(d), TypeOf(d), PaymentOf(d),
        if isAdmin then Some(ActionFor(d)) else None)
  }

  // ---------------------------------------------------------------------------------
  // The page
  // ---------------------------------------------------------------------------------

  class DonationsPage {
    var donations: seq<Donation>
    var filteredDonations: seq<Donation>
    var loading: bool
    var error: Option<string>
    var filters: Filters

    constructor ()
      ensures donations == [] && filteredDonations == [] && loading && error.None? && filters == NoFilters
    {
      donations, filteredDonations := [], [];
      loading := true;
      error := None;
      filters := NoFilters;
    }

    /** `fetchDonations()`: every donation for an admin, the user's own otherwise. */
    method FetchDonations(isAdmin: bool, allFetch: Fetch<Payload<Donation>>, mineFetch: Fetch<Payload<Donation>>)
      modifies this
      ensures !loading && filters == old(filters)
      ensures var fetch := if isAdmin then allFetch else mineFetch;
              (fetch.Fetched? ==> donations == ListOf(fetch.data) && filteredDonations == ListOf(fetch.data)
                                  && error == old(error))
              && (fetch.Failed? ==> error == Some("Failed to load donations.") && donations == old(donations)
                                    && filteredDonations == old(filteredDonations))
    {
      loading := true;
      var data := if isAdmin then allFetch else mineFetch;
      if data.Fetched? {
        var donationList := ListOf(data.data);
        donations := donationList;
        filteredDonations := donationList;
      } else {
        error := Some("Failed to load donations.");
      }
      loading := false;
    }

    /** The filter effect, run whenever the filters, the donations or the role change. */
    method FilterEffect(isAdmin: bool)
      modifies this
      ensures filteredDonations == Filtered(donations, isAdmin, filters)
      ensures donations == old(donations) && filters == old(filters) && error == old(error)
      ensures loading == old(loading)
    {
      filteredDonations := ApplyFilters(donations, isAdmin, filters);
    }

    /** The filter inputs' `onChange` handlers: the search term and the three selects. */
    method SetFilters(f: Filters)
      modifies this
      ensures filters == f && donations == old(donations) && filteredDonations == old(filteredDonations)
      ensures loading == old(loading) && error == old(error)
    {
      filters := f;
    }

    /** The "Clear Filters" button. */
    method ClearFilters()
      modifies this
      ensures filters == NoFilters && donations == old(donations) && filteredDonations == old(filteredDonations)
      ensures loading == old(loading) && error == old(error)
    {
      filters := NoFilters;
    }

    /** `handleVerify(id)`: after a successful update the matching donations turn
        `'Verified'` locally; on failure nothing changes. */
    method HandleVerify(id: Option<string>, updated: bool)
      modifies this
      ensures updated ==> donations == MarkVerified(old(donations), id)
      ensures !updated ==> donations == old(donations)
      ensures filteredDonations == old(filteredDonations) && filters == old(filters) && error == old(error)
      ensures loading == old(loading)
    {
      if updated {
        donations := MarkVerified(donations, id);
      }
    }
  }
}
