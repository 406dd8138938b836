/** The invoice list page: the status badges, the summary counts and the pay
    button. */
module InvoicesPage {
  import opened Wrappers
  import opened Records
  import Lists

  /** A badge's background class, text class and label. */
  datatype Badge = Badge(bg: string, text: string, labelText: string)

  const PaidBadge := Badge("bg-green-100", "text-green-700", "Pay\U{E9}e")
  const PendingBadge := Badge("bg-yellow-100", "text-yellow-700", "En attente")
  const OverdueBadge := Badge("bg-red-100", "text-red-700", "En retard")

  /** `badges[status] || badges.PENDING`. */
  function StatusBadge(status: string): (r: Badge)
    ensures r == PaidBadge <==> status == "PAID"
    ensures r == OverdueBadge <==> status == "OVERDUE"
    ensures r == PendingBadge <==> status != "PAID" && status != "OVERDUE"
  {
    if status == "PAID" then PaidBadge
    else if status == "OVERDUE" then OverdueBadge
    else PendingBadge
  }

  /** The three badges carry distinct labels. */
  lemma BadgeLabelsDistinct(a: string, b: string)
    ensures StatusBadge(a).labelText == StatusBadge(b).labelText <==> StatusBadge(a) == StatusBadge(b)
  {
    assert PaidBadge.labelText[0] != PendingBadge.labelText[0];
    assert PaidBadge.labelText[0] != OverdueBadge.labelText[0];
    assert PendingBadge.labelText[3] != OverdueBadge.labelText[3];
  }

  predicate IsPending(inv: Invoice) { inv.status == "PENDING" }

  predicate IsPaid(inv: Invoice) { inv.status == "PAID" }

  /** The "En attente" card. */
  function PendingCount(invoices: Option<seq<Invoice>>): (r: nat)
    ensures r <= Lists.Length(invoices)
    ensures r == 0 <==> invoices.None? || forall i :: 0 <= i < |invoices.value| ==> invoices.value[i].status != "PENDING"
  {
    if invoices.Some? then Lists.CountZero(invoices.value, IsPending); Lists.Count(invoices.value, IsPending) else 0
  }

  /** The "Payées" card. */
  function PaidCount(invoices: Option<seq<Invoice>>): (r: nat)
    ensures r <= Lists.Length(invoices)
    ensures r == 0 <==> invoices.None? || forall i :: 0 <= i < |invoices.value| ==> invoices.value[i].status != "PAID"
  {
    if invoices.Some? then Lists.CountZero(invoices.value, IsPaid); Lists.Count(invoices.value, IsPaid) else 0
  }

  /** The two cards never count an invoice twice, so together they are at most the total. */
  lemma CardsWithinTotal(invoices: Option<seq<Invoice>>)
    ensures PendingCount(invoices) + PaidCount(invoices) <= Lists.Length(invoices)
  {
    if invoices.Some? {
      Lists.DisjointCounts(invoices.value, IsPending, IsPaid);
    }
  }

  /** An overdue invoice is counted by neither card: adding one changes neither
      count. */
  lemma OverdueCountsNowhere(list: seq<Invoice>, inv: Invoice)
    requires inv.status == "OVERDUE"
    ensures PendingCount(Some(list + [inv])) == PendingCount(Some(list))
    ensures PaidCount(Some(list + [inv])) == PaidCount(Some(list))
  {
    Lists.FilterAppend(list, [inv], IsPending);
    Lists.FilterAppend(list, [inv], IsPaid);
    assert Lists.Filter([inv], IsPending) == Lists.Filter([inv][1..], IsPending);
    assert Lists.Filter([inv], IsPaid) == Lists.Filter([inv][1..], IsPaid);
  }

  /** `invoice.status !== 'PAID'`. */
  predicate ShowsPayButton(inv: Invoice)
    ensures ShowsPayButton(inv) <==> StatusBadge(inv.status) != PaidBadge
  {
    inv.status != "PAID"
  }

  /** Every invoice the dashboards offer to pay for a parcel also shows the pay
      button on the invoice list. */
  lemma OfferedInvoicesShowPayButton(invoices: Option<seq<Invoice>>, parcelId: int)
    ensures OpenInvoiceFor(invoices, parcelId).Some? ==> ShowsPayButton(OpenInvoiceFor(invoices, parcelId).value)
  {
  }
}
