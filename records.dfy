/** The records the dashboard pages read from the API, typed with the fields those
    pages use, and the lookups two or more pages share. */
module Records {
  import opened Wrappers
  import opened Text
  import Lists

  /** A user profile; the API may spell the name fields in either case style. */
  datatype User = User(firstName: Option<string>, first_name: Option<string>,
                       lastName: Option<string>, last_name: Option<string>)

  /** A customer's US forwarding address, possibly with its owner attached. */
  datatype Address = Address(addressCode: string, usStreet: string, usCity: string,
                             usState: string, usZipcode: string, user: Option<User>)

  datatype Parcel = Parcel(id: int, trackingNumber: string, description: Option<string>,
                           status: string, createdAt: string)

  /** An invoice and the id of the parcel it bills, when it is linked to one. */
  datatype Invoice = Invoice(id: int, parcelId: Option<int>, status: string)

  /** A string field is truthy when present and non-empty. */
  predicate Filled(v: Option<string>) {
    v.Some? && v.value != ""
  }

  /** `a || b || ''`. */
  function Prefer(a: Option<string>, b: Option<string>): (r: string)
    ensures Filled(a) ==> r == a.value
    ensures !Filled(a) && Filled(b) ==> r == b.value
    ensures r == "" <==> !Filled(a) && !Filled(b)
  {
    if Filled(a) then a.value else if Filled(b) then b.value else ""
  }

  /** The name a user record gives, as both name blocks compute it: the first and
      last names (each preferring the camel-case field) joined by a space and
      trimmed; nothing when both parts are empty. */
  function NameOf(u: User): (r: Option<string>)
    ensures r.None? <==> Prefer(u.firstName, u.first_name) == "" && Prefer(u.lastName, u.last_name) == ""
    ensures r.Some? ==> r.value == Trim(Prefer(u.firstName, u.first_name) + " " + Prefer(u.lastName, u.last_name))
  {
    var first := Prefer(u.firstName, u.first_name);
    var last := Prefer(u.lastName, u.last_name);
    if first != "" || last != "" then Some(Trim(first + " " + last)) else None
  }

  /** Trimming removes the joining space when one part is missing, so a single
      part appears on its own. */
  lemma SinglePartName(u: User)
    ensures Prefer(u.lastName, u.last_name) == "" && Prefer(u.firstName, u.first_name) != "" ==>
      NameOf(u) == Some(Trim(Prefer(u.firstName, u.first_name)))
    ensures Prefer(u.firstName, u.first_name) == "" && Prefer(u.lastName, u.last_name) != "" ==>
      NameOf(u) == Some(Trim(Prefer(u.lastName, u.last_name)))
  {
    var first := Prefer(u.firstName, u.first_name);
    var last := Prefer(u.lastName, u.last_name);
    if last == "" {
      assert first + " " + last == first + " ";
      TrimIgnoresTrailingSpace(first);
    }
    if first == "" {
      assert first + " " + last == " " + last;
      TrimIgnoresLeadingSpace(last);
    }
  }


  /** `inv.parcel?.id === parcelId && inv.status !== 'PAID'`. */
  predicate OpenFor(parcelId: int, inv: Invoice) {
    inv.parcelId == Some(parcelId) && inv.status != "PAID"
  }

  /** `getParcelInvoice`, written identically on the parcels page and on the
      dashboard home page: the first unpaid invoice linked to the parcel. */
  function OpenInvoiceFor(invoices: Option<seq<Invoice>>, parcelId: int): (r: Option<Invoice>)
    ensures r.None? <==> invoices.None? || forall i :: 0 <= i < |invoices.value| ==> !OpenFor(parcelId, invoices.value[i])
    ensures r.Some? ==> exists i :: 0 <= i < |invoices.value| && invoices.value[i] == r.value &&
                          OpenFor(parcelId, r.value) &&
                          forall j :: 0 <= j < i ==> !OpenFor(parcelId, invoices.value[j])
  {
    match invoices
    case None => None
    case Some(list) => Lists.Find(list, (inv: Invoice) => OpenFor(parcelId, inv))
  }
}
