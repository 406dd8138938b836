/** The untyped values the REST API returns (axios `response.data`), with the
    JavaScript semantics the core depends on: truthiness, `||`, property reads
    with and without `?.`, and `String(v)` as used by `localStorage.setItem`. */
module Js {
  import opened Wrappers

  /** A JSON value, plus `undefined` for a property that is absent. Numbers are
      integers in this model. */
  datatype Json =
    | Undefined
    | Null
    | Bool(b: bool)
    | Num(n: int)
    | Str(s: string)
    | Arr(items: seq<Json>)
    | Obj(fields: map<string, Json>)

  /** What a rejected promise carries. */
  datatype JsError =
    | HttpError(status: int, data: Json)  // an axios error with `error.response`
    | NetworkError                        // an axios error without a response
    | TypeError                           // a property read on null or undefined
    | Thrown(message: string)             // `new Error(message)`

  predicate Nullish(v: Json) {
    v.Undefined? || v.Null?
  }

  predicate Truthy(v: Json) {
    match v
    case Undefined => false
    case Null => false
    case Bool(b) => b
    case Num(n) => n != 0
    case Str(s) => s != ""
    case Arr(_) => true
    case Obj(_) => true
  }

  /** `a || b`. */
  function Or(a: Json, b: Json): (r: Json)
    ensures Truthy(a) ==> r == a
    ensures !Truthy(a) ==> r == b
  {
    if Truthy(a) then a else b
  }

  /** `v[key]` on a value that is not null or undefined (the keys this model reads
      are not properties of strings, numbers or arrays). */
  function Field(v: Json, key: string): Json {
    match v
    case Obj(fields) => if key in fields then fields[key] else Undefined
    case _ => Undefined
  }

  /** `v.key`: throws a TypeError on null or undefined. */
  function Get(v: Json, key: string): (r: Result<Json, JsError>)
    ensures r.Err? <==> Nullish(v)
    ensures r.Err? ==> r.error == TypeError
    ensures r.Ok? ==> r.value == Field(v, key)
  {
    if Nullish(v) then Err(TypeError) else Ok(Field(v, key))
  }

  /** `v?.key`: undefined on null or undefined instead of throwing. */
  function OptGet(v: Json, key: string): (r: Json)
    ensures Nullish(v) ==> r == Undefined
    ensures !Nullish(v) ==> r == Field(v, key)
  {
    if Nullish(v) then Undefined else Field(v, key)
  }

  function DigitChar(d: nat): char
    requires d < 10
  {
    ('0' as int + d) as char
  }

  function NatToString(n: nat): (r: string)
    ensures r != []
    ensures forall i :: 0 <= i < |r| ==> '0' <= r[i] <= '9'
  {
    if n < 10 then [DigitChar(n)] else NatToString(n / 10) + [DigitChar(n % 10)]
  }

  /** The decimal text of an integer, as `String(n)` and `${n}` write it. */
  function IntToString(n: int): string {
    if n < 0 then "-" + NatToString(-n) else NatToString(n)
  }

  /** `String(v)`, which `localStorage.setItem` and template literals apply. */
  function ToJsString(v: Json): string
    decreases v
  {
    match v
    case Undefined => "undefined"
    case Null => "null"
    case Bool(b) => if b then "true" else "false"
    case Num(n) => IntToString(n)
    case Str(s) => s
    case Arr(items) => ItemsText(v, 0)
    case Obj(_) => "[object Object]"
  }

  /** `items.join(',')` from index `k` on, where null and undefined print as "". */
  function ItemsText(v: Json, k: nat): string
    requires v.Arr? && k <= |v.items|
    decreases v, |v.items| - k
  {
    if k == |v.items| then ""
    else
      var item := v.items[k];
      var text := if Nullish(item) then "" else ToJsString(item);
      if k + 1 == |v.items| then text else text + "," + ItemsText(v, k + 1)
  }

  /** `error.response?.status`. */
  function Status(e: JsError): (r: Option<int>)
    ensures r.Some? <==> e.HttpError?
  {
    if e.HttpError? then Some(e.status) else None
  }

  /** `error.response?.data?.message`. */
  function ServerMessage(e: JsError): (r: Json)
    ensures !e.HttpError? ==> r == Undefined
  {
    if e.HttpError? then OptGet(e.data, "message") else Undefined
  }
}
