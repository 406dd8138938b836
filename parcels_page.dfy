/** The parcel list page: the search and status filter, the unpaid-invoice lookup
    and the empty-state message. */
module ParcelsPage {
  import opened Wrappers
  import opened Text
  import opened Records
  import Lists
  import ParcelStatus

  /** Characters `normalize` keeps: everything but "-" and whitespace. */
  predicate Kept(c: char) {
    c != '-' && !IsWhitespace(c)
  }

  /** `str.replace(/[-\s]/g, '').toLowerCase()`. */
  function Normalize(s: string): (r: string)
    ensures |r| <= |s|
    ensures forall i :: 0 <= i < |r| ==> Kept(r[i]) && !IsUpper(r[i])
  {
    Lower(Lists.Filter(s, Kept))
  }

  /** `normalize` works character by character: a kept character is lower-cased,
      a dash or whitespace character is dropped. */
  lemma NormalizeChar(c: char)
    ensures Normalize([c]) == if Kept(c) then [LowerChar(c)] else []
  {
    assert [c][1..] == [];
  }

  /** `normalize` of a concatenation is the concatenation of the two results. */
  lemma NormalizeAppend(a: string, b: string)
    ensures Normalize(a + b) == Normalize(a) + Normalize(b)
  {
    Lists.FilterAppend(a, b, Kept);
    var fa, fb := Lists.Filter(a, Kept), Lists.Filter(b, Kept);
    assert Lower(fa + fb) == Lower(fa) + Lower(fb);
  }

  /** Normalizing twice is normalizing once. */
  lemma NormalizeIdempotent(s: string)
    ensures Normalize(Normalize(s)) == Normalize(s)
  {
    var n := Normalize(s);
    Lists.FilterKeepsAll(n, Kept);
    assert Lower(n) == n;
  }

  /** The search test: the normalized tracking number contains the normalized
      search, or the lower-cased description (when there is one) contains the
      lower-cased search, which is not stripped of dashes and spaces. */
  predicate MatchesSearch(p: Parcel, search: string)
    ensures search == "" ==> MatchesSearch(p, search)
  {
    Includes(Normalize(p.trackingNumber), Normalize(search)) ||
    (p.description.Some? && Includes(Lower(p.description.value), Lower(search)))
  }

  /** `statusFilter === 'ALL' || parcel.status === statusFilter`. */
  predicate MatchesStatus(p: Parcel, filter: string)
    ensures filter == "ALL" ==> MatchesStatus(p, filter)
    ensures filter != "ALL" ==> (MatchesStatus(p, filter) <==> p.status == filter)
  {
    filter == "ALL" || p.status == filter
  }

  predicate Shown(search: string, filter: string, p: Parcel) {
    MatchesSearch(p, search) && MatchesStatus(p, filter)
  }

  /** `filteredParcels`; an absent list gives the empty list. */
  function FilteredParcels(parcels: Option<seq<Parcel>>, search: string, filter: string): (r: seq<Parcel>)
    ensures parcels.None? ==> r == []
    ensures parcels.Some? ==> |r| <= |parcels.value|
  {
    match parcels
    case None => []
    case Some(list) => Lists.Filter(list, (p: Parcel) => Shown(search, filter, p))
  }

  /** The filtered list keeps the original order, and holds exactly the parcels that
      pass both tests. */
  lemma FilteredIsOrderedSelection(list: seq<Parcel>, search: string, filter: string, p: Parcel)
    ensures Lists.IsSubsequence(FilteredParcels(Some(list), search, filter), list)
    ensures p in FilteredParcels(Some(list), search, filter) <==> p in list && Shown(search, filter, p)
  {
    Lists.FilterIsSubsequence(list, (q: Parcel) => Shown(search, filter, q));
    Lists.FilterMembership(list, (q: Parcel) => Shown(search, filter, q), p);
  }

  lemma IncludesEmpty(s: string)
    ensures Includes(s, "")
  {
  }

  /** No search text and the "ALL" filter show every parcel. */
  lemma NoCriteriaShowsAll(list: seq<Parcel>)
    ensures FilteredParcels(Some(list), "", "ALL") == list
  {
    assert Normalize("") == "";
    forall i | 0 <= i < |list| ensures Shown("", "ALL", list[i]) {
      IncludesEmpty(Normalize(list[i].trackingNumber));
    }
    Lists.FilterKeepsAll(list, (p: Parcel) => Shown("", "ALL", p));
  }

  /** The status filter's choices, in the order the select lists them. */
  const StatusFilterOptions: seq<string> := [
    "ALL", "PENDING", "RECEIVED_AT_WAREHOUSE", "IN_TRANSIT",
    "ARRIVED_IN_HAITI", "READY_FOR_PICKUP", "DELIVERED"
  ]

  /** Three choices are not status names, so no parcel whose status is a known
      status ever passes them: choosing one of them empties the list. */
  lemma UnreachableFilterOptions(list: seq<Parcel>, search: string, option: string)
    requires option in {"RECEIVED_AT_WAREHOUSE", "ARRIVED_IN_HAITI", "READY_FOR_PICKUP"}
    requires forall i :: 0 <= i < |list| ==> ParcelStatus.Parse(list[i].status).Some?
    ensures option in StatusFilterOptions && ParcelStatus.Parse(option).None?
    ensures FilteredParcels(Some(list), search, option) == []
  {
    assert ParcelStatus.Parse(option).None?;
    forall i | 0 <= i < |list| ensures !Shown(search, option, list[i]) {
      var s := ParcelStatus.Parse(list[i].status).value;
      assert ParcelStatus.Name(s) == list[i].status;
    }
    Lists.FilterNone(list, (p: Parcel) => Shown(search, option, p));
  }

  const NoMatch := "Aucun colis trouv\U{E9} avec ces crit\U{E8}res"
  const NoParcelsYet := "Aucun colis pour le moment"

  /** The text shown when the filtered list is empty. */
  function EmptyMessage(search: string, filter: string): (r: string)
    ensures r == NoMatch || r == NoParcelsYet
    ensures r == NoMatch <==> search != "" || filter != "ALL"
  {
    assert NoMatch != NoParcelsYet by {
      assert NoMatch[12] != NoParcelsYet[12];
    }
    if search != "" || filter != "ALL" then NoMatch else NoParcelsYet
  }

  /** When the empty state says there are no parcels yet, the list really is
      empty or absent. */
  lemma EmptyMessageIsAccurate(parcels: Option<seq<Parcel>>, search: string, filter: string)
    ensures EmptyMessage(search, filter) == NoParcelsYet && FilteredParcels(parcels, search, filter) == [] ==>
      parcels.None? || parcels.value == []
  {
    assert NoMatch != NoParcelsYet by {
      assert NoMatch[12] != NoParcelsYet[12];
    }
    if parcels.Some? && search == "" && filter == "ALL" {
      NoCriteriaShowsAll(parcels.value);
    }
  }
}
