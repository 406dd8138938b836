/** The delivery history page: the delivered parcels, their count and the parcel
    the "Depuis" card dates. */
module HistoryPage {
  import opened Wrappers
  import opened Records
  import Lists

  predicate IsDelivered(p: Parcel) {
    p.status == "DELIVERED"
  }

  /** `parcels?.filter(p => p.status === 'DELIVERED') || []`. */
  function Delivered(parcels: Option<seq<Parcel>>): (r: seq<Parcel>)
    ensures parcels.None? ==> r == []
    ensures forall i :: 0 <= i < |r| ==> IsDelivered(r[i])
  {
    if parcels.Some? then Lists.Filter(parcels.value, IsDelivered) else []
  }

  /** The delivered list is the delivered parcels, every one of them and in order. */
  lemma DeliveredIsOrderedSelection(list: seq<Parcel>, p: Parcel)
    ensures Lists.IsSubsequence(Delivered(Some(list)), list)
    ensures p in Delivered(Some(list)) <==> p in list && IsDelivered(p)
  {
    Lists.FilterIsSubsequence(list, IsDelivered);
    Lists.FilterMembership(list, IsDelivered, p);
  }

  /** The "Colis livrés" card: the length of the delivered list. */
  function DeliveredCount(parcels: Option<seq<Parcel>>): (n: nat)
    ensures n <= if parcels.Some? then |parcels.value| else 0
  {
    |Delivered(parcels)|
  }

  /** The parcel whose creation date the "Depuis" card shows: the last delivered
      parcel of the list, or none (the card then shows "N/A"). */
  function SinceParcel(parcels: Option<seq<Parcel>>): (r: Option<Parcel>)
    ensures r.None? <==> parcels.None? || forall i :: 0 <= i < |parcels.value| ==> !IsDelivered(parcels.value[i])
    ensures r.Some? ==> exists i :: 0 <= i < |parcels.value| && parcels.value[i] == r.value &&
                          IsDelivered(r.value) &&
                          forall j :: i < j < |parcels.value| ==> !IsDelivered(parcels.value[j])
  {
    var d := Delivered(parcels);
    if d == [] then
      if parcels.Some? then
        assert forall i :: 0 <= i < |parcels.value| ==> !IsDelivered(parcels.value[i]) by {
          forall i | 0 <= i < |parcels.value| ensures !IsDelivered(parcels.value[i]) {
            Lists.FilterMembership(parcels.value, IsDelivered, parcels.value[i]);
          }
        }
        None
      else None
    else
      Lists.FilterLast(parcels.value, IsDelivered);
      Some(d[|d| - 1])
  }

  /** The "Depuis" card's text before date formatting: the creation date of that
      parcel, or "N/A". */
  function SinceText(parcels: Option<seq<Parcel>>): (r: string)
    ensures SinceParcel(parcels).None? ==> r == "N/A"
    ensures SinceParcel(parcels).Some? ==> r == SinceParcel(parcels).value.createdAt
  {
    match SinceParcel(parcels)
    case None => "N/A"
    case Some(p) => p.createdAt
  }
}
