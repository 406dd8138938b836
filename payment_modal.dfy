/** The card-entry modal: input formatters and the submit handler's state changes. */
module PaymentModal {
  import opened Wrappers
  import opened Js
  import opened Text
  import Lists

  function Min(a: int, b: int): int { if a < b then a else b }

  /** Four digits per group, the last group holding what is left. */
  function Chunks(s: string): (parts: seq<string>)
    ensures s == [] <==> parts == []
    decreases |s|
  {
    if s == [] then [] else [s[..Min(4, |s|)]] + Chunks(s[Min(4, |s|)..])
  }

  /** `v.match(/\d{4,16}/g)[0] || ''` on a string of digits: its first sixteen
      digits when it has at least four, the empty string otherwise. */
  function CardMatch(v: string): (m: string)
    requires forall i :: 0 <= i < |v| ==> IsDigit(v[i])
    ensures m == [] <==> |v| < 4
    ensures m != [] ==> m == v[..Min(16, |v|)]
  {
    if |v| < 4 then "" else v[..Min(16, |v|)]
  }

  /** Groups of four digits separated by single spaces, the last group holding one
      to four digits. */
  predicate Grouped(r: string)
    decreases |r|
  {
    if |r| <= 4 then r != [] && AllDigits(r)
    else |r| >= 6 && AllDigits(r[..4]) && r[4] == ' ' && Grouped(r[5..])
  }

  /** Splitting a long digit string into its first group and the rest. */
  lemma ChunksStep(m: string)
    requires |m| > 4
    ensures Chunks(m) == [m[..4]] + Chunks(m[4..])
    ensures Join(Chunks(m), " ") == m[..4] + " " + Join(Chunks(m[4..]), " ")
  {
    assert Chunks(m[4..]) != [];
  }

  /** Joining the groups keeps exactly the digits, in order. */
  lemma {:induction false} JoinedChunksDigits(m: string)
    requires AllDigits(m)
    ensures Digits(Join(Chunks(m), " ")) == m
    decreases |m|
  {
    if |m| <= 4 {
      if m != [] {
        assert m[..Min(4, |m|)] == m && m[Min(4, |m|)..] == [];
        assert Chunks(m) == [m];
      }
      DigitsOfDigits(m);
    } else {
      ChunksStep(m);
      JoinedChunksDigits(m[4..]);
      DigitsAfter(m[..4], ' ', Join(Chunks(m[4..]), " "));
      assert m == m[..4] + m[4..];
    }
  }

  /** Joining the groups of a non-empty digit string lays them out in groups of
      four, with one space per group after the first. */
  lemma {:induction false} JoinedChunksLayout(m: string)
    requires m != [] && AllDigits(m)
    ensures var r := Join(Chunks(m), " ");
      Grouped(r) && |r| == |m| + (|m| - 1) / 4
    decreases |m|
  {
    if |m| <= 4 {
      assert m[..Min(4, |m|)] == m && m[Min(4, |m|)..] == [];
      assert Chunks(m) == [m];
    } else {
      ChunksStep(m);
      JoinedChunksLayout(m[4..]);
      var r := Join(Chunks(m), " ");
      assert r[..4] == m[..4] && r[4] == ' ' && r[5..] == Join(Chunks(m[4..]), " ");
    }
  }

  /** `formatCardNumber(value)`, as a specification: the raw input when fewer than
      four digits remain after cleaning, else the first sixteen digits grouped by
      four. */
  function CardNumber(value: string): (r: string)
    ensures |Digits(value)| < 4 ==> r == value
    ensures |Digits(value)| >= 4 ==>
      Grouped(r) && Digits(r) == Digits(value)[..Min(16, |Digits(value)|)] && |r| <= 19
  {
    var m := CardMatch(Digits(value));
    if m == [] then value
    else
      JoinedChunksDigits(m);
      JoinedChunksLayout(m);
      Join(Chunks(m), " ")
  }

  /** Formatting an already formatted card number changes nothing. */
  lemma CardNumberIdempotent(value: string)
    ensures CardNumber(CardNumber(value)) == CardNumber(value)
  {
    var v := Digits(value);
    if |v| >= 4 {
      var m := CardMatch(v);
      var r := CardNumber(value);
      assert r == Join(Chunks(m), " ");
      JoinedChunksDigits(m);
      assert CardMatch(Digits(r)) == m;
    }
  }

  /** The groups of a suffix: the next four characters, then the groups after them. */
  lemma ChunksFrom(m: string, i: nat)
    requires i < |m|
    ensures Chunks(m[i..]) == [m[i..Min(i + 4, |m|)]] + Chunks(m[Min(i + 4, |m|)..])
  {
    var rest := m[i..];
    assert rest[..Min(4, |rest|)] == m[i..Min(i + 4, |m|)];
    assert rest[Min(4, |rest|)..] == m[Min(i + 4, |m|)..];
  }

  /** The `for` loop of `formatCardNumber`: `match.substring(i, i + 4)` for `i`
      stepping by four, collected in order. */
  method CollectGroups(m: string) returns (parts: seq<string>)
    ensures parts == Chunks(m)
  {
    parts := [];
    var i := 0;
    while i < |m|
      invariant 0 <= i
      invariant parts + Chunks(m[Min(i, |m|)..]) == Chunks(m)
      decreases |m| - i
    {
      ChunksFrom(m, i);
      parts := parts + [m[i..Min(i + 4, |m|)]];
      i := i + 4;
    }
    assert m[Min(i, |m|)..] == [];
  }

  /** `formatCardNumber(value)`: the groups of the match joined with spaces, or the
      raw input when there are none. */
  method FormatCardNumber(value: string) returns (r: string)
    ensures r == CardNumber(value)
  {
    var m := CardMatch(Digits(value));
    var parts := CollectGroups(m);
    if |parts| > 0 {
      r := Join(parts, " ");
    } else {
      r := value;
    }
  }

  /** The digits of a formatted expiry are the digits it was made from. */
  lemma ExpiryDigits(v: string)
    requires |v| >= 2 && AllDigits(v)
    ensures Digits(v[..2] + "/" + v[2..Min(4, |v|)]) == v[..Min(4, |v|)]
  {
    var head, tail := v[..2], v[2..Min(4, |v|)];
    DigitsAfter(head, '/', tail);
    DigitsOfDigits(tail);
    assert v[..Min(4, |v|)] == head + tail;
  }

  /** `formatExpiry(value)`: the digits only; from two digits on, the first two, a
      slash, and at most the next two. */
  function Expiry(value: string): (r: string)
    ensures |r| <= 5
    ensures ('/' in r) <==> |Digits(value)| >= 2
    ensures Digits(r) == Digits(value)[..Min(4, |Digits(value)|)]
    ensures |Digits(value)| >= 2 ==>
              |r| >= 3 && r[2] == '/' && r[..2] + r[3..] == Digits(value)[..Min(4, |Digits(value)|)]
    ensures |Digits(value)| < 2 ==> r == Digits(value)
  {
    var v := Digits(value);
    if |v| >= 2 then
      ExpiryDigits(v);
      var r := v[..2] + "/" + v[2..Min(4, |v|)];
      assert r[2] == '/';
      assert r[..2] == v[..2] && r[3..] == v[2..Min(4, |v|)];
      assert v[..Min(4, |v|)] == v[..2] + v[2..Min(4, |v|)];
      r
    else
      DigitsOfDigits(v);
      assert forall k :: 0 <= k < |v| ==> v[k] != '/';
      v
  }

  /** Formatting an already formatted expiry changes nothing. */
  lemma ExpiryIdempotent(value: string)
    ensures Expiry(Expiry(value)) == Expiry(value)
  {
    var v := Digits(value);
    var r := Expiry(value);
    if |v| >= 2 {
      ExpiryDigits(v);
      assert Digits(r) == v[..Min(4, |v|)];
      assert Digits(r)[..2] == v[..2];
      assert Digits(r)[2..Min(4, |Digits(r)|)] == v[2..Min(4, |v|)];
    } else {
      DigitsOfDigits(v);
    }
  }

  /** The CVC input handler: `value.replace(/\D/g, '').slice(0, 3)`. */
  function Cvc(value: string): (r: string)
    ensures |r| <= 3 && r <= Digits(value)
    ensures forall k :: 0 <= k < |r| ==> IsDigit(r[k])
    ensures |Digits(value)| >= 3 ==> |r| == 3
    ensures r == Digits(value)[..Min(3, |Digits(value)|)]
  {
    Lists.Take(Digits(value), 3)
  }

  datatype Callback = OnSuccess | OnClose

  /** The modal's state: its form fields, the loading flag, and the parent callbacks
      it has invoked. */
  class Modal {
    var loading: bool
    var cardNumber: string
    var expiry: string
    var cvc: string
    var cardName: string
    var invoked: seq<Callback>

    constructor ()
      ensures !loading && cardNumber == "" && expiry == "" && cvc == "" && cardName == "" && invoked == []
    {
      loading, cardNumber, expiry, cvc, cardName, invoked := false, "", "", "", "", [];
    }

    method ChangeCardNumber(value: string)
      modifies this
      ensures cardNumber == CardNumber(value)
      ensures loading == old(loading) && expiry == old(expiry) && cvc == old(cvc)
      ensures cardName == old(cardName) && invoked == old(invoked)
    {
      cardNumber := FormatCardNumber(value);
    }

    method ChangeExpiry(value: string)
      modifies this
      ensures expiry == Expiry(value)
      ensures loading == old(loading) && cardNumber == old(cardNumber) && cvc == old(cvc)
      ensures cardName == old(cardName) && invoked == old(invoked)
    {
      expiry := Expiry(value);
    }

    method ChangeCvc(value: string)
      modifies this
      ensures cvc == Cvc(value)
      ensures loading == old(loading) && cardNumber == old(cardNumber) && expiry == old(expiry)
      ensures cardName == old(cardName) && invoked == old(invoked)
    {
      cvc := Cvc(value);
    }

    /** `handleSubmit`, given the outcome of `createPaymentIntent`: on success the
        parent's `onSuccess` and then `onClose` are called, on failure neither; the
        loading flag is cleared either way and the form is kept. */
    method HandleSubmit(intent: Result<Json, JsError>)
      modifies this
      ensures !loading
      ensures invoked == old(invoked) + (if intent.Ok? then [OnSuccess, OnClose] else [])
      ensures cardNumber == old(cardNumber) && expiry == old(expiry) && cvc == old(cvc)
      ensures cardName == old(cardName)
    {
      loading := true;
      if intent.Ok? {
        invoked := invoked + [OnSuccess];
        invoked := invoked + [OnClose];
      }
      loading := false;
    }
  }
}
