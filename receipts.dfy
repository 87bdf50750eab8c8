/** The receipts page: the verified-only list, the fields of a printed receipt with their
    fallbacks, the receipt number and PDF file name cut from the donation id, and the
    column headers. */
module Receipts {
  import opened JsCore
  import opened Records
  import Campaigns

  // ---------------------------------------------------------------------------------
  // The list
  // ---------------------------------------------------------------------------------

  /** The request made: an admin asks for every donation with a `status: 'Verified'`
      query, a user for their own donations. */
  datatype ReceiptRequest = AllDonations(statusQuery: string) | MyDonations

  function RequestFor(isAdmin: bool): (r: ReceiptRequest)
    ensures isAdmin <==> r == AllDonations("Verified")
    ensures !isAdmin <==> r == MyDonations
  {
    if isAdmin then AllDonations("Verified") else MyDonations
  }

  /** `receipts` before any fetch has settled. */
  const InitialReceipts: seq<Donation> := []

  /** `rawList.filter(d => d.status === 'Verified')` */
  function VerifiedOnly(ds: seq<Donation>): seq<Donation> {
    Filter(ds, Campaigns.IsVerified)
  }

  /** `receipts` after the fetch settles: the verified donations of the normalised response
      (whichever role asked), or, when the request failed, what was there before. */
  function ReceiptsAfterFetch(current: seq<Donation>, fetch: Fetch<Payload<Donation>>): seq<Donation> {
    if fetch.Fetched? then VerifiedOnly(ListOf(fetch.data)) else current
  }

  /** The receipts are exactly the fetched donations whose status is `'Verified'`, in fetch
      order, whatever the server sent; a failed first fetch leaves the list empty. */
  lemma ReceiptsAreVerifiedInOrder(current: seq<Donation>, fetch: Fetch<Payload<Donation>>, d: Donation)
    ensures fetch.Fetched? ==> IsSubsequence(ReceiptsAfterFetch(current, fetch), ListOf(fetch.data))
    ensures fetch.Fetched? ==>
              (d in ReceiptsAfterFetch(current, fetch) <==> d in ListOf(fetch.data) && d.status == Some("Verified"))
    ensures fetch.Failed? ==> ReceiptsAfterFetch(InitialReceipts, fetch) == []
  {
    if fetch.Fetched? {
      FilterIsSubsequence(ListOf(fetch.data), Campaigns.IsVerified);
      FilterMembers(ListOf(fetch.data), Campaigns.IsVerified, d);
    }
  }

  /** A response that is all verified passes through whole. */
  lemma AllVerifiedPassThrough(ds: seq<Donation>)
    requires forall i :: 0 <= i < |ds| ==> ds[i].status == Some("Verified")
    ensures VerifiedOnly(ds) == ds
  {
    FilterKeepsAll(ds, Campaigns.IsVerified);
  }

  // ---------------------------------------------------------------------------------
  // Receipt numbers and file names
  // ---------------------------------------------------------------------------------

  /** `` `#${id.slice(-8).toUpperCase()}` `` */
  function ReceiptNumber(id: string): (r: string)
    ensures |r| == 1 + (if |id| < 8 then |id| else 8)
    ensures r[0] == '#'
    ensures |id| >= 8 ==> r[1..] == ToUpper(id[|id| - 8..])
    ensures |id| < 8 ==> r[1..] == ToUpper(id)
  {
    "#" + ToUpper(LastN(id, 8))
  }

  /** `` `receipt-${id.slice(-6)}.pdf` `` */
  function PdfFilename(id: string): (r: string)
    ensures |r| == 12 + (if |id| < 6 then |id| else 6)
    ensures r[..8] == "receipt-" && r[|r| - 4..] == ".pdf"
    ensures r[8..|r| - 4] == LastN(id, 6)
  {
    "receipt-" + LastN(id, 6) + ".pdf"
  }

  /** For ids of six characters or more, the id part of the file name, upper-cased, is the
      end of the receipt number: the two always name the same donation. */
  lemma FilenameMatchesReceiptNumber(id: string)
    requires |id| >= 6
    ensures ToUpper(PdfFilename(id)[8..|PdfFilename(id)| - 4]) == LastN(ReceiptNumber(id), 6)
  {
    var r := ReceiptNumber(id);
    var last8 := LastN(id, 8);
    assert LastN(last8, 6) == LastN(id, 6);
    LastNToUpper(last8, 6);
    assert LastN(r, 6) == LastN(ToUpper(last8), 6);
  }

  // ---------------------------------------------------------------------------------
  // Receipt fields and rows
  // ---------------------------------------------------------------------------------

  /** The fields `generateReceiptHTML` fills in. */
  datatype Receipt = Receipt(number: string, donor: string, campaign: string, payment: string)

  /** The receipt of a donation; None when the donation has no id, where `id.slice`
      throws. */
  function ReceiptOf(d: Donation): (r: Option<Receipt>)
    ensures r.Some? <==> DonationId(d).Some?
    ensures r.Some? ==> r.value.number == ReceiptNumber(DonationId(d).value)
    ensures r.Some? ==> r.value.donor == OrElse(DonorNameOf(d), "Anonymous")
    ensures r.Some? ==> r.value.campaign == OrElse(CampaignTitleOf(d), "General Donation")
    ensures r.Some? ==> r.value.payment == OrElse(PaymentOf(d), "N/A")
  {
    var id := DonationId(d);
    if id.None? then None
    else Some(Receipt(ReceiptNumber(id.value), OrElse(DonorNameOf(d), "Anonymous"),
                      OrElse(CampaignTitleOf(d), "General Donation"), OrElse(PaymentOf(d), "N/A")))
  }

  /** The file name the PDF download saves under; None when the donation has no id. */
  function PdfFilenameOf(d: Donation): (r: Option<string>)
    ensures r.Some? <==> ReceiptOf(d).Some?
    ensures r.Some? ==> r.value == PdfFilename(DonationId(d).value)
  {
    var id := DonationId(d);
    if id.None? then None else Some(PdfFilename(id.value))
  }

  /** The cells of a table row that carry fallbacks; the payment cell has no default. */
  datatype Row = Row(donor: Option<string>, campaign: string, payment: Option<string>)

  function ReceiptRow(d: Donation, isAdmin: bool): (r: Row)
    ensures r.donor.Some? <==> isAdmin
    ensures isAdmin ==> r.donor.value == OrElse(DonorNameOf(d), "Anonymous")
    ensures r.campaign == OrElse(CampaignTitleOf(d), "General")
    ensures r.payment == PaymentOf(d)
  {
    Row(if isAdmin then Some(OrElse(DonorNameOf(d), "Anonymous")) else None,
        OrElse(CampaignTitleOf(d), "General"), PaymentOf(d))
  }

  /** The row and the printed receipt show the same donor, and the same campaign except
      for the fallback's wording. */
  lemma RowAgreesWithReceipt(d: Donation)
    requires DonationId(d).Some?
    ensures ReceiptRow(d, true).donor == Some(ReceiptOf(d).value.donor)
    ensures Truthy(CampaignTitleOf(d)) ==> ReceiptRow(d, true).campaign == ReceiptOf(d).value.campaign
    ensures !Truthy(CampaignTitleOf(d)) ==>
              ReceiptRow(d, true).campaign == "General" && ReceiptOf(d).value.campaign == "General Donation"
  {
  }

  function TableHeaders(isAdmin: bool): (h: seq<string>)
    ensures isAdmin ==> |h| == 7 && h[1] == "Donor"
    ensures !isAdmin ==> |h| == 6 && "Donor" !in h
    ensures isAdmin ==> h[..1] + h[2..] == TableHeaders(false)
  {
    if isAdmin then ["Date", "Donor", "Campaign", "Amount", "Payment", "Status", "Action"]
    else ["Date", "Campaign", "Amount", "Payment", "Status", "Action"]
  }
}
