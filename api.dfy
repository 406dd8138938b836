/** The API wrappers: each is one request through the client followed by a
    projection of the response body, except `getPrimaryAddress`, which turns
    "no primary address" answers into `null`. */
module Api {
  import opened Wrappers
  import opened Js
  import opened Text

  datatype Verb = GET | POST

  datatype Endpoint =
    | Login
    | Register
    | GetMe
    | MyParcels
    | ParcelById(id: string)
    | ParcelByTracking(trackingNumber: string)
    | ParcelHistory(parcelId: int)
    | TrackParcel(trackingNumber: string)
    | MyAddresses
    | PrimaryAddress
    | MyInvoices
    | InvoiceById(invoiceId: string)

  /** The login and registration calls post; every other wrapper gets. */
  function VerbOf(e: Endpoint): (v: Verb)
    ensures v == POST <==> e.Login? || e.Register?
  {
    match e
    case Login => POST
    case Register => POST
    case _ => GET
  }

  /** The request path of each wrapper. */
  function Path(e: Endpoint): (p: string)
    ensures "/api/" <= p
  {
    match e
    case Login => "/api/auth/login"
    case Register => "/api/auth/register"
    case GetMe => "/api/users/me"
    case MyParcels => "/api/parcels/my-parcels"
    case ParcelById(id) => "/api/parcels/" + id
    case ParcelByTracking(n) => "/api/parcels/tracking/" + n
    case ParcelHistory(id) => "/api/parcels/" + IntToString(id) + "/history"
    case TrackParcel(n) => "/api/parcels/tracking/" + n
    case MyAddresses => "/api/addresses/my-addresses"
    case PrimaryAddress => "/api/addresses/my-addresses/primary"
    case MyInvoices => "/api/billing/invoices/my-invoices"
    case InvoiceById(id) => "/api/billing/invoices/" + id
  }

  /** What a wrapper other than `getPrimaryAddress` returns for a 2xx body:
      `response.data` for login and registration, `response.data.data` for the
      rest, which throws when the body is null or undefined. */
  function Unwrap(e: Endpoint, body: Json): (r: Result<Json, JsError>)
    requires !e.PrimaryAddress?
    ensures (e.Login? || e.Register?) ==> r == Ok(body)
    ensures !(e.Login? || e.Register?) ==> (r.Ok? <==> !Nullish(body))
    ensures !(e.Login? || e.Register?) && r.Ok? ==> r.value == Field(body, "data")
    ensures r.Err? ==> r.error == TypeError
  {
    if e.Login? || e.Register? then Ok(body) else Get(body, "data")
  }

  /** `error.response?.data?.message?.includes('not found')`: a string is searched
      for the substring, an array for an element equal to it; any other non-null
      message has no callable `includes`, and calling it throws. */
  function MessageSaysNotFound(m: Json): (r: Result<bool, JsError>)
    ensures Nullish(m) ==> r == Ok(false)
    ensures m.Str? ==> r == Ok(Includes(m.s, "not found"))
    ensures r.Err? ==> r.error == TypeError
  {
    match m
    case Undefined => Ok(false)
    case Null => Ok(false)
    case Str(s) => Ok(Includes(s, "not found"))
    case Arr(items) => Ok(Str("not found") in items)
    case _ => Err(TypeError)
  }

  /** `getPrimaryAddress()` given the outcome of its GET: `null` (`Null`) when the
      body or its `data` is missing, or when the failure is a 404 or says
      "not found"; every other failure is rethrown unchanged. */
  function GetPrimaryAddress(outcome: Result<Json, JsError>): (r: Result<Json, JsError>)
    ensures outcome.Ok? ==> r.Ok?
    ensures r.Ok? ==> r.value == Null || (outcome.Ok? && Truthy(r.value) && r.value == Field(outcome.value, "data"))
    ensures outcome.Ok? && Truthy(Field(outcome.value, "data")) ==> r == Ok(Field(outcome.value, "data"))
    ensures outcome.Ok? && !Truthy(Field(outcome.value, "data")) ==> r == Ok(Null)
    ensures outcome.Err? && Status(outcome.error) == Some(404) ==> r == Ok(Null)
    ensures outcome.Err? && ServerMessage(outcome.error).Str? && Includes(ServerMessage(outcome.error).s, "not found") ==>
              r == Ok(Null)
    ensures r.Err? ==> outcome.Err? && Status(outcome.error) != Some(404) && (r == outcome || r == Err(TypeError))
    ensures outcome.Err? && Status(outcome.error) != Some(404) && MessageSaysNotFound(ServerMessage(outcome.error)) == Ok(false) ==>
              r == outcome
    ensures outcome.Err? && Status(outcome.error) != Some(404) && MessageSaysNotFound(ServerMessage(outcome.error)).Err? ==>
              r == Err(TypeError)
  {
    match outcome
    case Ok(body) =>
      if !Truthy(body) || !Truthy(Field(body, "data")) then Ok(Null) else Ok(Field(body, "data"))
    case Err(e) =>
      if Status(e) == Some(404) then Ok(Null)
      else
        match MessageSaysNotFound(ServerMessage(e))
        case Err(typeError) => Err(typeError)
        case Ok(found) => if found then Ok(Null) else Err(e)
  }

  /** The result of calling a wrapper, given the outcome of its request through the
      client: a failed request rejects with the same error (except for
      `getPrimaryAddress`, which may map it to `null`). */
  function Call(e: Endpoint, outcome: Result<Json, JsError>): (r: Result<Json, JsError>)
    ensures !e.PrimaryAddress? && outcome.Err? ==> r == outcome
  {
    if e.PrimaryAddress? then GetPrimaryAddress(outcome)
    else match outcome
      case Err(err) => Err(err)
      case Ok(body) => Unwrap(e, body)
  }

  /** `getParcelByTracking` and `trackParcel` send the same request and unwrap it the
      same way, so they agree on every input and every outcome. */
  lemma TrackingWrappersAgree(n: string, outcome: Result<Json, JsError>)
    ensures Path(ParcelByTracking(n)) == Path(TrackParcel(n)) == "/api/parcels/tracking/" + n
    ensures Call(ParcelByTracking(n), outcome) == Call(TrackParcel(n), outcome)
  {
  }

  /** A parcel's history lives under the path of that parcel. */
  lemma HistoryUnderParcelPath(id: int)
    ensures Path(ParcelHistory(id)) == Path(ParcelById(IntToString(id))) + "/history"
  {
  }
}
