/** The dashboard home page: the statistics cards, the recent-parcels list, the
    unpaid-invoice lookup and the customer name on the address card. */
module DashboardHome {
  import opened Wrappers
  import opened Records
  import Lists
  import ParcelStatus

  /** `parcels?.slice(0, 5) || []`: the first five parcels, or all of them when
      there are fewer. */
  function RecentParcels(parcels: Option<seq<Parcel>>): (r: seq<Parcel>)
    ensures |r| <= 5 && |r| <= Lists.Length(parcels)
    ensures parcels.Some? ==> r <= parcels.value && |r| == if |parcels.value| < 5 then |parcels.value| else 5
    ensures parcels.None? ==> r == []
  {
    if parcels.Some? then Lists.Take(parcels.value, 5) else []
  }

  predicate IsReady(p: Parcel) {
    p.status == "READY" || p.status == "OUT_FOR_DELIVERY"
  }

  predicate IsInTransit(p: Parcel) {
    p.status == "IN_TRANSIT" || p.status == "SHIPPED"
  }

  /** The "ready" card: parcels waiting for pickup or out for delivery. */
  function ReadyCount(parcels: Option<seq<Parcel>>): (r: nat)
    ensures r <= Lists.Length(parcels)
    ensures r == 0 <==> parcels.None? || forall i :: 0 <= i < |parcels.value| ==> !IsReady(parcels.value[i])
  {
    if parcels.Some? then Lists.CountZero(parcels.value, IsReady); Lists.Count(parcels.value, IsReady) else 0
  }

  /** The "in transit" card: parcels in transit or shipped. */
  function InTransitCount(parcels: Option<seq<Parcel>>): (r: nat)
    ensures r <= Lists.Length(parcels)
    ensures r == 0 <==> parcels.None? || forall i :: 0 <= i < |parcels.value| ==> !IsInTransit(parcels.value[i])
  {
    if parcels.Some? then Lists.CountZero(parcels.value, IsInTransit); Lists.Count(parcels.value, IsInTransit) else 0
  }

  /** A parcel either card counts has a real status: READY or OUT_FOR_DELIVERY for
      the "ready" card, IN_TRANSIT or SHIPPED for the "in transit" card. */
  lemma CardsCountKnownStatuses(p: Parcel)
    ensures IsReady(p) ==> ParcelStatus.Parse(p.status) in {Some(ParcelStatus.READY), Some(ParcelStatus.OUT_FOR_DELIVERY)}
    ensures IsInTransit(p) ==> ParcelStatus.Parse(p.status) in {Some(ParcelStatus.IN_TRANSIT), Some(ParcelStatus.SHIPPED)}
  {
    ParcelStatus.ParseName(ParcelStatus.READY);
    ParcelStatus.ParseName(ParcelStatus.OUT_FOR_DELIVERY);
    ParcelStatus.ParseName(ParcelStatus.IN_TRANSIT);
    ParcelStatus.ParseName(ParcelStatus.SHIPPED);
  }

  /** No parcel is both ready and in transit, so the two cards never add up to more
      than the total. */
  lemma CardsWithinTotal(parcels: Option<seq<Parcel>>)
    ensures ReadyCount(parcels) + InTransitCount(parcels) <= Lists.Length(parcels)
  {
    if parcels.Some? {
      Lists.DisjointCounts(parcels.value, IsReady, IsInTransit);
    }
  }

  /** `getParcelInvoice` on this page; the page's definition is the same lookup as
      the parcel list's. */
  function ParcelInvoice(invoices: Option<seq<Invoice>>, parcelId: int): (r: Option<Invoice>)
    ensures r.None? <==> invoices.None? || forall i :: 0 <= i < |invoices.value| ==> !OpenFor(parcelId, invoices.value[i])
    ensures r.Some? ==> exists i :: 0 <= i < |invoices.value| && invoices.value[i] == r.value &&
                          r.value.parcelId == Some(parcelId) && r.value.status != "PAID" &&
                          forall j :: 0 <= j < i ==> !OpenFor(parcelId, invoices.value[j])
  {
    OpenInvoiceFor(invoices, parcelId)
  }

  const DefaultName := "Votre Nom"

  /** `clientName` on this page: the profile's name first, then the name of the
      address's owner, then a placeholder. */
  function ClientName(user: Option<User>, address: Option<Address>): (r: string)
    ensures user.Some? && NameOf(user.value).Some? ==> r == NameOf(user.value).value
    ensures ((user.None? || NameOf(user.value).None?) && address.Some? && address.value.user.Some? &&
             NameOf(address.value.user.value).Some?) ==> r == NameOf(address.value.user.value).value
    ensures (user.None? || NameOf(user.value).None?) &&
            (address.None? || address.value.user.None? || NameOf(address.value.user.value).None?) ==>
            r == DefaultName
  {
    if user.Some? && NameOf(user.value).Some? then NameOf(user.value).value
    else if address.Some? && address.value.user.Some? && NameOf(address.value.user.value).Some? then
      NameOf(address.value.user.value).value
    else DefaultName
  }
}
