/** The dashboard: the three totals accumulated over the fetched donations, the five most
    recent donations, and the column headers. */
module Dashboard {
  import opened JsCore
  import opened Records

  // ---------------------------------------------------------------------------------
  // Totals
  // ---------------------------------------------------------------------------------

  datatype Stats = Stats(totalDonations: real, verifiedDonations: real, pendingDonations: real)

  const ZeroStats := Stats(0.0, 0.0, 0.0)

  /** A donation's amount when its status is exactly `'Verified'`, else 0. */
  function VerifiedAmount(d: Donation): real {
    if d.status == Some("Verified") then Amount(d) else 0.0
  }

  /** A donation's amount when its status is exactly `'Pending'`, else 0. */
  function PendingAmount(d: Donation): real {
    if d.status == Some("Pending") then Amount(d) else 0.0
  }

  /** A donation's amount when its status is neither, else 0. */
  function OtherAmount(d: Donation): real {
    if d.status == Some("Verified") || d.status == Some("Pending") then 0.0 else Amount(d)
  }

  /** What the totals are meant to be: sums over all donations, over the verified ones and
      over the pending ones. */
  function Totals(ds: seq<Donation>): Stats {
    Stats(SumOf(ds, Amount), SumOf(ds, VerifiedAmount), SumOf(ds, PendingAmount))
  }

  /** The `forEach` loop. */
  method ComputeStats(donations: seq<Donation>) returns (s: Stats)
    ensures s == Totals(donations)
  {
    var total, verified, pending := 0.0, 0.0, 0.0;
    var i := 0;
    while i < |donations|
      invariant 0 <= i <= |donations|
      invariant total == SumOf(donations[..i], Amount)
      invariant verified == SumOf(donations[..i], VerifiedAmount)
      invariant pending == SumOf(donations[..i], PendingAmount)
    {
      var d := donations[i];
      var amount := Amount(d);
      total := total + amount;
      if d.status == Some("Verified") {
        verified := verified + amount;
      }
      if d.status == Some("Pending") {
        pending := pending + amount;
      }
      assert donations[..i + 1][..i] == donations[..i];
      i := i + 1;
    }
    assert donations[..i] == donations;
    s := Stats(total, verified, pending);
  }

  function VerifiedOrPendingAmount(d: Donation): real {
    VerifiedAmount(d) + PendingAmount(d)
  }

  /** The total splits into the verified part, the pending part and the part of every other
      status. */
  lemma StatsPartition(ds: seq<Donation>)
    ensures Totals(ds).totalDonations
            == Totals(ds).verifiedDonations + Totals(ds).pendingDonations + SumOf(ds, OtherAmount)
  {
    SumOfAdd(ds, VerifiedAmount, PendingAmount, VerifiedOrPendingAmount);
    SumOfAdd(ds, VerifiedOrPendingAmount, OtherAmount, Amount);
  }

  /** With no negative amounts, the verified and pending totals are non-negative and
      together never exceed the total. */
  lemma StatsBounded(ds: seq<Donation>)
    requires forall i :: 0 <= i < |ds| ==> Amount(ds[i]) >= 0.0
    ensures 0.0 <= Totals(ds).verifiedDonations && 0.0 <= Totals(ds).pendingDonations
    ensures Totals(ds).verifiedDonations + Totals(ds).pendingDonations <= Totals(ds).totalDonations
  {
    StatsPartition(ds);
    SumOfNonNegative(ds, OtherAmount);
    SumOfNonNegative(ds, VerifiedAmount);
    SumOfNonNegative(ds, PendingAmount);
  }

  // ---------------------------------------------------------------------------------
  // The five most recent
  // ---------------------------------------------------------------------------------

  /** `x || y` on optional timestamps. */
  function OrTime(x: Option<int>, y: Option<int>): Option<int> {
    if x.Some? then x else y
  }

  /** The comparator as written: `new Date(b.createdAt || b.date) - new Date(a.createdAt ||
      b.date)`, where the second operand falls back to `b`'s date. A missing timestamp is
      an invalid date, and the NaN difference is taken as a tie. */
  function RecentOrder(a: Donation, b: Donation): int {
    var tb := OrTime(b.createdAt, b.date);
    var ta := OrTime(a.createdAt, b.date);
    if tb.Some? && ta.Some? then tb.value - ta.value else 0
  }

  /** `[...donations].sort(RecentOrder).slice(0, 5)` */
  function RecentDonations(ds: seq<Donation>): seq<Donation> {
    FirstN(ArraySort(ds, RecentOrder), 5)
  }

  /** At most five entries, all taken from the fetched list; five whenever that many were
      fetched. This holds for either comparator. */
  lemma RecentDrawnFromFetched(ds: seq<Donation>)
    ensures |RecentDonations(ds)| == if |ds| < 5 then |ds| else 5
    ensures multiset(RecentDonations(ds)) <= multiset(ds)
    ensures |IntendedRecentDonations(ds)| == if |ds| < 5 then |ds| else 5
    ensures multiset(IntendedRecentDonations(ds)) <= multiset(ds)
  {
    TopFiveDrawnFrom(ds, RecentOrder);
    TopFiveDrawnFrom(ds, IntendedRecentOrder);
  }

  lemma TopFiveDrawnFrom(ds: seq<Donation>, cmp: (Donation, Donation) -> int)
    ensures |FirstN(ArraySort(ds, cmp), 5)| == if |ds| < 5 then |ds| else 5
    ensures multiset(FirstN(ArraySort(ds, cmp), 5)) <= multiset(ds)
  {
    var sorted := ArraySort(ds, cmp);
    ArraySortPermutes(ds, cmp);
    if |sorted| > 5 {
      assert sorted == sorted[..5] + sorted[5..];
      assert multiset(sorted) == multiset(sorted[..5]) + multiset(sorted[5..]);
    }
  }

  /** The creation time of a donation that has one. */
  function CreatedKey(d: Donation): int {
    if d.createdAt.Some? then d.createdAt.value else 0
  }

  lemma PrefixSortedDesc(s: seq<Donation>, n: nat, key: Donation -> int)
    requires SortedDescBy(s, key)
    ensures SortedDescBy(FirstN(s, n), key)
  {
  }

  /** When every donation has `createdAt`, the written fallback never fires and the list is
      newest first; it is the head of the whole list sorted newest first. */
  lemma RecentNewestFirst(ds: seq<Donation>)
    requires forall d :: d in ds ==> d.createdAt.Some?
    ensures SortedDescBy(ArraySort(ds, RecentOrder), CreatedKey)
    ensures SortedDescBy(RecentDonations(ds), CreatedKey)
  {
    ArraySortSortedDesc(ds, RecentOrder, CreatedKey);
    PrefixSortedDesc(ArraySort(ds, RecentOrder), 5, CreatedKey);
  }

  /** As written, when no donation has `createdAt` the comparator compares each `b.date`
      with itself, calls every pair a tie, and the list keeps the fetch order. */
  lemma RecentWithoutCreatedAtKeepsFetchOrder(ds: seq<Donation>)
    requires forall d :: d in ds ==> d.createdAt.None?
    ensures RecentDonations(ds) == FirstN(ds, 5)
  {
    ArraySortAllTies(ds, RecentOrder);
  }

  /** An input that shows it: two donations dated 1 and 5, fetched oldest first, stay
      oldest first. */
  lemma RecentOrderAsWrittenCounterexample()
    ensures var older := Donation(Some("a"), None, NoRef, None, Some(10.0), Some("Verified"), None, None, None,
                                  None, None, None, None, Some(1));
            var newer := older.(oid := Some("b"), date := Some(5));
            RecentDonations([older, newer]) == [older, newer]
  {
    var older := Donation(Some("a"), None, NoRef, None, Some(10.0), Some("Verified"), None, None, None,
                          None, None, None, None, Some(1));
    var newer := older.(oid := Some("b"), date := Some(5));
    RecentWithoutCreatedAtKeepsFetchOrder([older, newer]);
  }

  /** The intended comparator: each side falls back to its own `date`. */
  function IntendedRecentOrder(a: Donation, b: Donation): int {
    var tb := OrTime(b.createdAt, b.date);
    var ta := OrTime(a.createdAt, a.date);
    if tb.Some? && ta.Some? then tb.value - ta.value else 0
  }

  /** A donation's own timestamp: `createdAt || date`. */
  function StampKey(d: Donation): int {
    var t := OrTime(d.createdAt, d.date);
    if t.Some? then t.value else 0
  }

  /** The five most recent donations, newest first by each donation's own timestamp. */
  function IntendedRecentDonations(ds: seq<Donation>): seq<Donation> {
    FirstN(ArraySort(ds, IntendedRecentOrder), 5)
  }

  /** With the intended comparator the list is newest first whenever each donation has
      either timestamp. */
  lemma IntendedRecentNewestFirst(ds: seq<Donation>)
    requires forall d :: d in ds ==> OrTime(d.createdAt, d.date).Some?
    ensures SortedDescBy(ArraySort(ds, IntendedRecentOrder), StampKey)
    ensures SortedDescBy(IntendedRecentDonations(ds), StampKey)
  {
    ArraySortSortedDesc(ds, IntendedRecentOrder, StampKey);
    PrefixSortedDesc(ArraySort(ds, IntendedRecentOrder), 5, StampKey);
  }

  /** The two comparators agree on every list whose donations all have `createdAt`. */
  lemma {:induction false} IntendedAgreesWhenCreatedAtPresent(ds: seq<Donation>)
    requires forall d :: d in ds ==> d.createdAt.Some?
    ensures ArraySort(ds, RecentOrder) == ArraySort(ds, IntendedRecentOrder)
    decreases |ds|
  {
    if ds != [] {
      assert forall d :: d in ds[1..] ==> d in ds;
      IntendedAgreesWhenCreatedAtPresent(ds[1..]);
      var sorted := ArraySort(ds[1..], RecentOrder);
      ArraySortPermutes(ds[1..], RecentOrder);
      assert forall d :: d in sorted ==> d in multiset(ds[1..]);
      InsertAgrees(ds[0], sorted);
    }
  }

  lemma {:induction false} InsertAgrees(x: Donation, r: seq<Donation>)
    requires x.createdAt.Some?
    requires forall d :: d in r ==> d.createdAt.Some?
    ensures Insert(x, r, RecentOrder) == Insert(x, r, IntendedRecentOrder)
    decreases |r|
  {
    if r != [] {
      assert forall d :: d in r[1..] ==> d in r;
      InsertAgrees(x, r[1..]);
    }
  }

  // ---------------------------------------------------------------------------------
  // Table
  // ---------------------------------------------------------------------------------

  /** `['Date', 'Campaign', 'Amount', 'Status']`, with `splice(1, 0, 'Donor Name')` for
      admins. */
  method TableHeaders(isAdmin: bool) returns (headers: seq<string>)
    ensures |headers| == if isAdmin then 5 else 4
    ensures !isAdmin ==> headers == ["Date", "Campaign", "Amount", "Status"]
    ensures isAdmin ==> headers[..1] + headers[2..] == ["Date", "Campaign", "Amount", "Status"]
                        && headers[1] == "Donor Name"
  {
    headers := ["Date", "Campaign", "Amount", "Status"];
    if isAdmin {
      headers := headers[..1] + ["Donor Name"] + headers[1..];
    }
  }

  /** The cells of a row that carry fallbacks. */
  datatype Row = Row(donor: Option<string>, campaign: string)

  function DonationRow(d: Donation, isAdmin: bool): (r: Row)
    ensures r.donor.Some? <==> isAdmin
    ensures isAdmin ==> r.donor.value == OrElse(DonorNameOf(d), "Anonymous")
    ensures r.campaign == OrElse(CampaignTitleOf(d), "General")
  {
    Row(if isAdmin then Some(OrElse(DonorNameOf(d), "Anonymous")) else None,
        OrElse(CampaignTitleOf(d), "General"))
  }

  // ---------------------------------------------------------------------------------
  // The page
  // ---------------------------------------------------------------------------------

  class DashboardPage {
    var stats: Stats
    var recentDonations: seq<Donation>
    var loading: bool

    constructor ()
      ensures stats == ZeroStats && recentDonations == [] && loading
    {
      stats := ZeroStats;
      recentDonations := [];
      loading := true;
    }

    /** The effect on `[isAdmin]`: every donation for an admin, the user's own otherwise.
        On failure the previous stats and list stay. The recent list is sorted with the
        comparator as written, `RecentOrder`. */
    method FetchData(isAdmin: bool, allFetch: Fetch<Payload<Donation>>, mineFetch: Fetch<Payload<Donation>>)
      modifies this
      ensures !loading
      ensures var fetch := if isAdmin then allFetch else mineFetch;
              (fetch.Failed? ==> stats == old(stats) && recentDonations == old(recentDonations))
              && (fetch.Fetched? ==> stats == Totals(ListOf(fetch.data))
                                     && recentDonations == RecentDonations(ListOf(fetch.data)))
    {
      loading := true;
      var data := if isAdmin then allFetch else mineFetch;
      if data.Fetched? {
        var donations := ListOf(data.data);
        stats := ComputeStats(donations);
        var sorted := ArraySort(donations, RecentOrder);
        recentDonations := FirstN(sorted, 5);
      }
      loading := false;
    }
  }
}
