/** The two-step registration page: field validators, form and step state, and
    the token handling after a successful registration. */
module Register {
  import opened Wrappers
  import opened Js
  import opened Text
  import opened Browser

  datatype FormField =
    | FirstName | LastName | Email | Phone | Password | ConfirmPassword
    | Department | Commune | Street | Landmark

  datatype Form = Form(firstName: string, lastName: string, email: string, phone: string,
                       password: string, confirmPassword: string,
                       department: string, commune: string, street: string, landmark: string)

  const InitialForm := Form("", "", "", "", "", "", "Ouest", "", "", "")

  function Value(f: Form, k: FormField): string {
    match k
    case FirstName => f.firstName
    case LastName => f.lastName
    case Email => f.email
    case Phone => f.phone
    case Password => f.password
    case ConfirmPassword => f.confirmPassword
    case Department => f.department
    case Commune => f.commune
    case Street => f.street
    case Landmark => f.landmark
  }

  /** `{ ...prev, [name]: value }`. */
  function WithValue(f: Form, k: FormField, v: string): (g: Form)
    ensures Value(g, k) == v
  {
    match k
    case FirstName => f.(firstName := v)
    case LastName => f.(lastName := v)
    case Email => f.(email := v)
    case Phone => f.(phone := v)
    case Password => f.(password := v)
    case ConfirmPassword => f.(confirmPassword := v)
    case Department => f.(department := v)
    case Commune => f.(commune := v)
    case Street => f.(street := v)
    case Landmark => f.(landmark := v)
  }

  /** Changing one field leaves every other field as it was. */
  lemma WithValueKeepsOthers(f: Form, k: FormField, v: string, other: FormField)
    requires other != k
    ensures Value(WithValue(f, k, v), other) == Value(f, other)
  {
  }

  /** `[^\s@]`. */
  predicate EmailChar(c: char) { !IsWhitespace(c) && c != '@' }

  /** `/^[^\s@]+@[^\s@]+\.[^\s@]+$/`: a non-empty local part, one "@", and a domain
      with a dot that has characters on both sides; no whitespace anywhere and no
      other "@". */
  predicate ValidEmail(s: string) {
    exists at, dot | 0 < at < dot < |s| - 1 ::
      s[at] == '@' && s[dot] == '.' && at + 1 < dot &&
      forall i :: 0 <= i < |s| && i != at ==> EmailChar(s[i])
  }

  /** `\d{4}-?\d{4}$` against what follows the prefix. */
  predicate EightDigitsWithOptionalDash(c: string) {
    (|c| == 8 && AllDigits(c)) ||
    (|c| == 9 && c[4] == '-' && AllDigits(c[..4]) && AllDigits(c[5..]))
  }

  /** `/^\+?509\s?\d{4}-?\d{4}$/`: an optional "+", then "509", at most one
      whitespace character, four digits, an optional "-", four digits. */
  predicate ValidPhone(s: string) {
    var a := if |s| > 0 && s[0] == '+' then s[1..] else s;
    |a| >= 3 && a[..3] == "509" &&
    var b := a[3..];
    var c := if |b| > 0 && IsWhitespace(b[0]) then b[1..] else b;
    EightDigitsWithOptionalDash(c)
  }

  /** From position `p`, a character of the class occurs before any line terminator
      (the lookahead `(?=.*[class])`, since `.` stops at line terminators). */
  predicate AheadOnLine(s: string, p: nat, isClass: char -> bool)
    requires p <= |s|
  {
    exists i | p <= i < |s| :: isClass(s[i]) && forall k | p <= k < i :: !IsLineTerminator(s[k])
  }

  /** `/(?=.*[a-z])(?=.*[A-Z])(?=.*\d)/`: unanchored, so it holds when some position
      has a lowercase letter, an uppercase letter and a digit ahead on its line. */
  predicate MixedCharacters(s: string) {
    exists p | 0 <= p <= |s| ::
      AheadOnLine(s, p, IsLower) && AheadOnLine(s, p, IsUpper) && AheadOnLine(s, p, IsDigit)
  }

  const FirstNameRequired := "Le pr\U{E9}nom est requis"
  const LastNameRequired := "Le nom est requis"
  const EmailRequired := "L'email est requis"
  const EmailInvalid := "Email invalide"
  const PhoneRequired := "Le t\U{E9}l\U{E9}phone est requis"
  const PhoneFormat := "Format: +509 XXXX-XXXX"
  const PasswordRequired := "Le mot de passe est requis"
  const PasswordTooShort := "Minimum 8 caract\U{E8}res"
  const PasswordTooWeak := "Doit contenir majuscule, minuscule et chiffre"
  const PasswordsDiffer := "Les mots de passe ne correspondent pas"
  const CommuneRequired := "La commune est requise"
  const StreetRequired := "L'adresse compl\U{E8}te est requise"
  const RegisterFailed := "Une erreur est survenue lors de l'inscription"

  /** The error each step-1 rule gives, if it gives one. */
  function EmailError(email: string): Option<string> {
    if Blank(email) then Some(EmailRequired)
    else if !ValidEmail(email) then Some(EmailInvalid)
    else None
  }

  function PhoneError(phone: string): Option<string> {
    if Blank(phone) then Some(PhoneRequired)
    else if !ValidPhone(phone) then Some(PhoneFormat)
    else None
  }

  /** The password rules, checked in order, so at most one of them reports. */
  function PasswordError(password: string): (r: Option<string>)
    ensures r == None <==> |password| >= 8 && MixedCharacters(password)
    ensures password == "" ==> r == Some(PasswordRequired)
    ensures password != "" && |password| < 8 ==> r == Some(PasswordTooShort)
    ensures |password| >= 8 && !MixedCharacters(password) ==> r == Some(PasswordTooWeak)
  {
    if password == "" then Some(PasswordRequired)
    else if |password| < 8 then Some(PasswordTooShort)
    else if !MixedCharacters(password) then Some(PasswordTooWeak)
    else None
  }

  const Step1Fields: set<FormField> := {FirstName, LastName, Email, Phone, Password, ConfirmPassword}
  const Step2Fields: set<FormField> := {Commune, Street}

  /** The message a step-1 rule gives for its field, if it gives one. A field is
      "empty" for these rules when its trimmed value is empty, which is `Blank`
      (see the contract of `Text.Trim`). */
  function Step1Error(f: Form, k: FormField): Option<string> {
    match k
    case FirstName => if Blank(f.firstName) then Some(FirstNameRequired) else None
    case LastName => if Blank(f.lastName) then Some(LastNameRequired) else None
    case Email => EmailError(f.email)
    case Phone => PhoneError(f.phone)
    case Password => PasswordError(f.password)
    case ConfirmPassword => if f.password != f.confirmPassword then Some(PasswordsDiffer) else None
    case _ => None
  }

  /** The message a step-2 rule gives: the commune must be chosen and the street
      must not be blank; the landmark is never checked. */
  function Step2Error(f: Form, k: FormField): Option<string> {
    match k
    case Commune => if f.commune == "" then Some(CommuneRequired) else None
    case Street => if Blank(f.street) then Some(StreetRequired) else None
    case _ => None
  }

  /** The error map `validateStep1` builds: one entry per failing step-1 rule. */
  function Step1Errors(f: Form): (r: map<FormField, string>)
    ensures r.Keys <= Step1Fields
    ensures forall k :: k in Step1Fields ==> (k in r <==> Step1Error(f, k).Some?)
    ensures forall k :: k in r ==> Some(r[k]) == Step1Error(f, k)
  {
    map k | k in Step1Fields && Step1Error(f, k).Some? :: Step1Error(f, k).value
  }

  /** The error map `validateStep2` builds. */
  function Step2Errors(f: Form): (r: map<FormField, string>)
    ensures r.Keys <= Step2Fields
    ensures forall k :: k in Step2Fields ==> (k in r <==> Step2Error(f, k).Some?)
    ensures forall k :: k in r ==> Some(r[k]) == Step2Error(f, k)
  {
    map k | k in Step2Fields && Step2Error(f, k).Some? :: Step2Error(f, k).value
  }

  /** Which step-1 fields are reported, and with which message. */
  lemma Step1Rules(f: Form)
    ensures FirstName in Step1Errors(f) <==> Blank(f.firstName)
    ensures LastName in Step1Errors(f) <==> Blank(f.lastName)
    ensures Email in Step1Errors(f) <==> Blank(f.email) || !ValidEmail(f.email)
    ensures Email in Step1Errors(f) ==>
      Step1Errors(f)[Email] == if Blank(f.email) then EmailRequired else EmailInvalid
    ensures Phone in Step1Errors(f) <==> Blank(f.phone) || !ValidPhone(f.phone)
    ensures Phone in Step1Errors(f) ==>
      Step1Errors(f)[Phone] == if Blank(f.phone) then PhoneRequired else PhoneFormat
    ensures Password in Step1Errors(f) <==> |f.password| < 8 || !MixedCharacters(f.password)
    ensures ConfirmPassword in Step1Errors(f) <==> f.password != f.confirmPassword
    ensures forall k :: k in Step1Errors(f) ==> k in Step1Fields
  {
  }

  /** Step 1 passes exactly when every rule is met. */
  lemma Step1Passes(f: Form)
    ensures Step1Errors(f) == map[] <==>
      !Blank(f.firstName) && !Blank(f.lastName) && ValidEmail(f.email) && ValidPhone(f.phone) &&
      |f.password| >= 8 && MixedCharacters(f.password) && f.password == f.confirmPassword
  {
    var e := Step1Errors(f);
    Step1Rules(f);
    if ValidEmail(f.email) {
      ValidEmailNotBlank(f.email);
    }
    if ValidPhone(f.phone) {
      ValidPhoneNotBlank(f.phone);
    }
    if !Blank(f.firstName) && !Blank(f.lastName) && ValidEmail(f.email) && ValidPhone(f.phone) &&
       |f.password| >= 8 && MixedCharacters(f.password) && f.password == f.confirmPassword {
      assert FirstName !in e && LastName !in e && Email !in e;
      assert Phone !in e && Password !in e && ConfirmPassword !in e;
      assert forall k :: k !in e;
    }
  }

  /** Step 2 reports a missing commune and a blank street, and passes exactly when
      neither applies. */
  lemma Step2Rules(f: Form)
    ensures Commune in Step2Errors(f) <==> f.commune == ""
    ensures Street in Step2Errors(f) <==> Blank(f.street)
    ensures Step2Errors(f) == map[] <==> f.commune != "" && !Blank(f.street)
  {
    var e := Step2Errors(f);
    if f.commune != "" && !Blank(f.street) {
      assert forall k :: k !in e;
    } else if f.commune == "" {
      assert Commune in e;
    } else {
      assert Street in e;
    }
  }

  lemma ValidEmailNotBlank(s: string)
    requires ValidEmail(s)
    ensures !Blank(s)
  {
    var at, dot :| 0 < at < dot < |s| - 1 && s[at] == '@' && s[dot] == '.' && at + 1 < dot &&
      forall i :: 0 <= i < |s| && i != at ==> EmailChar(s[i]);
    assert !IsWhitespace(s[0]);
  }

  lemma ValidPhoneNotBlank(s: string)
    requires ValidPhone(s)
    ensures !Blank(s)
  {
    var a := if |s| > 0 && s[0] == '+' then s[1..] else s;
    if s[0] != '+' {
      assert s[0] == a[0] == '5';
    }
  }

  /** An accepted phone number holds eleven digits, "509" then eight more, and
      between eleven and fourteen characters. */
  lemma ValidPhoneShape(s: string)
    requires ValidPhone(s)
    ensures 11 <= |s| <= 14
    ensures |Digits(s)| == 11 && Digits(s)[..3] == "509"
  {
    var pre, ws, c := PhoneParts(s);
    DigitsSplit(pre, ws, c);
    DashedDigits(c);
  }

  /** An accepted phone number cut at the optional "+", "509" and the optional
      whitespace character. */
  lemma PhoneParts(s: string) returns (pre: string, ws: string, c: string)
    requires ValidPhone(s)
    ensures s == pre + ("509" + (ws + c)) && EightDigitsWithOptionalDash(c)
    ensures |pre| <= 1 && forall i :: 0 <= i < |pre| ==> !IsDigit(pre[i])
    ensures |ws| <= 1 && forall i :: 0 <= i < |ws| ==> !IsDigit(ws[i])
  {
    var a := s;
    pre := [];
    if |s| > 0 && s[0] == '+' {
      pre, a := s[..1], s[1..];
    }
    assert a == "509" + a[3..] by { assert a[..3] == "509"; }
    var b := a[3..];
    ws, c := [], b;
    if |b| > 0 && IsWhitespace(b[0]) {
      ws, c := b[..1], b[1..];
      WhitespaceIsNotDigit(b[0]);
    }
    assert b == ws + c;
  }

  lemma WhitespaceIsNotDigit(ch: char)
    requires IsWhitespace(ch)
    ensures !IsDigit(ch)
  {
  }

  lemma DashedDigits(c: string)
    requires EightDigitsWithOptionalDash(c)
    ensures |Digits(c)| == 8
  {
    if |c| == 8 && AllDigits(c) {
      DigitsOfDigits(c);
    } else {
      assert c == c[..4] + [c[4]] + c[5..];
      DigitsAfter(c[..4], c[4], c[5..]);
      DigitsOfDigits(c[5..]);
    }
  }

  lemma DigitsSplit(pre: string, ws: string, c: string)
    requires |pre| <= 1 && forall i :: 0 <= i < |pre| ==> !IsDigit(pre[i])
    requires |ws| <= 1 && forall i :: 0 <= i < |ws| ==> !IsDigit(ws[i])
    ensures Digits(pre + ("509" + (ws + c))) == "509" + Digits(c)
  {
    DigitsSkip(pre, "509" + (ws + c));
    DigitsAppend("509", ws + c);
    DigitsOfDigits("509");
    DigitsSkip(ws, c);
  }

  /** Without line breaks, the character-class rule is simply: the password has a
      lowercase letter, an uppercase letter and a digit. */
  lemma {:induction false} MixedCharactersOnOneLine(s: string)
    requires forall k :: 0 <= k < |s| ==> !IsLineTerminator(s[k])
    ensures MixedCharacters(s) <==>
      (exists i :: 0 <= i < |s| && IsLower(s[i])) &&
      (exists i :: 0 <= i < |s| && IsUpper(s[i])) &&
      (exists i :: 0 <= i < |s| && IsDigit(s[i]))
  {
    if (exists i :: 0 <= i < |s| && IsLower(s[i])) &&
       (exists i :: 0 <= i < |s| && IsUpper(s[i])) &&
       (exists i :: 0 <= i < |s| && IsDigit(s[i])) {
      var l :| 0 <= l < |s| && IsLower(s[l]);
      var u :| 0 <= u < |s| && IsUpper(s[u]);
      var d :| 0 <= d < |s| && IsDigit(s[d]);
      assert AheadOnLine(s, 0, IsLower) && AheadOnLine(s, 0, IsUpper) && AheadOnLine(s, 0, IsDigit);
    }
  }

  /** What a registration response provides: `response.data.data || response.data`,
      then its two token fields as `localStorage.setItem` stores them (a missing one
      becomes the text "undefined"). Reading `.data` of a null body throws. */
  function IssuedTokens(body: Json): (r: Result<(string, string), JsError>)
    ensures r.Err? <==> Nullish(body)
    ensures r.Ok? ==> var holder := if Truthy(Field(body, "data")) then Field(body, "data") else body;
      r.value == (ToJsString(Field(holder, "accessToken")), ToJsString(Field(holder, "refreshToken")))
  {
    match Get(body, "data")
    case Err(e) => Err(e)
    case Ok(inner) =>
      var tokens := Or(inner, body);
      Ok((ToJsString(Field(tokens, "accessToken")), ToJsString(Field(tokens, "refreshToken"))))
  }

  /** The page's state. */
  class Page {
    var step: int
    var loading: bool
    var error: Json
    var form: Form
    var errors: map<FormField, string>

    constructor ()
      ensures step == 1 && !loading && error == Str("") && form == InitialForm && errors == map[]
    {
      step, loading, error, form, errors := 1, false, Str(""), InitialForm, map[];
    }

    /** `handleChange`: the named field takes the new value, and that field's error,
        if it shows one, is blanked; nothing else changes. */
    method HandleChange(name: FormField, value: string)
      modifies this
      ensures form == WithValue(old(form), name, value)
      ensures errors == if name in old(errors) && old(errors)[name] != "" then old(errors)[name := ""] else old(errors)
      ensures step == old(step) && loading == old(loading) && error == old(error)
    {
      form := WithValue(form, name, value);
      if name in errors && errors[name] != "" {
        errors := errors[name := ""];
      }
    }

    /** `validateStep1`: replaces the errors and passes when there are none. */
    method ValidateStep1() returns (ok: bool)
      modifies this
      ensures errors == Step1Errors(form) && ok == (errors == map[])
      ensures form == old(form) && step == old(step) && loading == old(loading) && error == old(error)
    {
      errors := Step1Errors(form);
      ok := errors == map[];
    }

    method ValidateStep2() returns (ok: bool)
      modifies this
      ensures errors == Step2Errors(form) && ok == (errors == map[])
      ensures form == old(form) && step == old(step) && loading == old(loading) && error == old(error)
    {
      errors := Step2Errors(form);
      ok := errors == map[];
    }

    /** `handleNext`: moves to step 2 only when step 1 validates. */
    method HandleNext()
      modifies this
      ensures errors == Step1Errors(old(form)) && form == old(form) && loading == old(loading)
      ensures Step1Errors(old(form)) == map[] ==> step == 2 && error == Str("")
      ensures Step1Errors(old(form)) != map[] ==> step == old(step) && error == old(error)
    {
      var ok := ValidateStep1();
      if ok {
        step := 2;
        error := Str("");
      }
    }

    /** `handleBack`: always returns to step 1. */
    method HandleBack()
      modifies this
      ensures step == 1 && error == Str("")
      ensures form == old(form) && errors == old(errors) && loading == old(loading)
    {
      step := 1;
      error := Str("");
    }

    /** `handleSubmit`, given the outcome of the registration POST: nothing is sent
        unless step 2 validates; on success both tokens are stored and the dashboard
        is pushed; on failure the server's message, or a fixed text, is shown. */
    method HandleSubmit(store: TokenStore, router: Router, response: Result<Json, JsError>)
      modifies this, store, router
      ensures errors == Step2Errors(old(form)) && form == old(form) && step == old(step)
      ensures Step2Errors(old(form)) != map[] ==>
        loading == old(loading) && error == old(error) &&
        store.accessToken == old(store.accessToken) && store.refreshToken == old(store.refreshToken) &&
        router.log == old(router.log)
      ensures Step2Errors(old(form)) == map[] ==> (!loading &&
        match if response.Ok? then IssuedTokens(response.value) else Err(response.error)
        case Ok(tokens) =>
          store.accessToken == Some(tokens.0) && store.refreshToken == Some(tokens.1) &&
          router.log == old(router.log) + [Push("/dashboard")] && error == Str("")
        case Err(e) =>
          store.accessToken == old(store.accessToken) && store.refreshToken == old(store.refreshToken) &&
          router.log == old(router.log) && error == Or(ServerMessage(e), Str(RegisterFailed)))
    {
      var ok := ValidateStep2();
      if !ok {
        return;
      }
      loading := true;
      error := Str("");
      var issued := if response.Ok? then IssuedTokens(response.value) else Err(response.error);
      match issued {
        case Ok(tokens) =>
          store.SetItem(AccessToken, tokens.0);
          store.SetItem(RefreshToken, tokens.1);
          router.Go(Push("/dashboard"));
        case Err(e) =>
          error := Or(ServerMessage(e), Str(RegisterFailed));
      }
      loading := false;
    }
  }
}
