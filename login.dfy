/** The login page: form state, the token pair read from the login response, and
    what a submission leaves in storage, in the navigation log and on screen. */
module Login {
  import opened Wrappers
  import opened Js
  import opened Browser

  datatype LoginField = Email | Password

  datatype Form = Form(email: string, password: string)

  const LoginFailed := "Email ou mot de passe incorrect"
  const TokensMissing := "Tokens not found in response"

  /** `body.accessToken || body.data?.accessToken` (and likewise for any key):
      the top-level field when truthy, else the one nested under `data`. Reading a
      field of a null body throws. */
  function TokenField(body: Json, key: string): (r: Result<Json, JsError>)
    ensures r.Err? <==> Nullish(body)
    ensures r.Ok? && Truthy(Field(body, key)) ==> r.value == Field(body, key)
    ensures r.Ok? && !Truthy(Field(body, key)) ==> r.value == OptGet(Field(body, "data"), key)
  {
    match Get(body, key)
    case Err(e) => Err(e)
    case Ok(top) => Ok(Or(top, OptGet(Field(body, "data"), key)))
  }

  /** The two tokens a login response yields, as stored by `setItem`, or the error
      the page throws or meets while reading them. */
  function LoginTokens(body: Json): (r: Result<(string, string), JsError>)
    ensures r.Err? <==> Nullish(body) || !Truthy(TokenField(body, "accessToken").value)
                                       || !Truthy(TokenField(body, "refreshToken").value)
    ensures r.Err? ==> r.error == (if Nullish(body) then TypeError else Thrown(TokensMissing))
    ensures r.Ok? ==> r.value == (ToJsString(TokenField(body, "accessToken").value),
                                  ToJsString(TokenField(body, "refreshToken").value))
  {
    match TokenField(body, "accessToken")
    case Err(e) => Err(e)
    case Ok(access) =>
      var refresh := TokenField(body, "refreshToken").value;
      if !Truthy(access) || !Truthy(refresh) then Err(Thrown(TokensMissing))
      else Ok((ToJsString(access), ToJsString(refresh)))
  }

  /** The text shown after a failed login: the server's message when it is truthy,
      otherwise a fixed one. */
  function ErrorMessage(e: JsError): (r: Json)
    ensures Truthy(r)
    ensures Truthy(ServerMessage(e)) ==> r == ServerMessage(e)
    ensures !Truthy(ServerMessage(e)) ==> r == Str(LoginFailed)
    ensures !e.HttpError? ==> r == Str(LoginFailed)
  {
    Or(ServerMessage(e), Str(LoginFailed))
  }

  /** The login outcome as the page sees it: the POST's reply, then the tokens. */
  function Outcome(response: Result<Json, JsError>): Result<(string, string), JsError> {
    match response
    case Ok(body) => LoginTokens(body)
    case Err(e) => Err(e)
  }

  /** A token given as a non-empty string, at the top level or (when the top-level
      field is falsy) under `data`, is stored verbatim. */
  predicate Carries(body: Json, key: string, token: string) {
    token != "" &&
    (Field(body, key) == Str(token) ||
     (!Truthy(Field(body, key)) && OptGet(Field(body, "data"), key) == Str(token)))
  }

  lemma TokensFromEitherPlace(body: Json, access: string, refresh: string)
    requires !Nullish(body)
    requires Carries(body, "accessToken", access) && Carries(body, "refreshToken", refresh)
    ensures LoginTokens(body) == Ok((access, refresh))
  {
  }

  /** A response without a usable access token (falsy at both places) never logs
      in, whatever its refresh token. */
  lemma MissingAccessTokenFails(body: Json)
    requires !Nullish(body)
    requires !Truthy(Field(body, "accessToken")) && !Truthy(OptGet(Field(body, "data"), "accessToken"))
    ensures LoginTokens(body) == Err(Thrown(TokensMissing))
    ensures ErrorMessage(LoginTokens(body).error) == Str(LoginFailed)
  {
  }

  /** The page's state. */
  class Page {
    var loading: bool
    var error: Json
    var form: Form

    constructor ()
      ensures !loading && error == Str("") && form == Form("", "")
    {
      loading, error, form := false, Str(""), Form("", "");
    }

    /** `handleChange`: the named field takes the value and any error is cleared. */
    method HandleChange(name: LoginField, value: string)
      modifies this
      ensures form == if name == Email then old(form).(email := value) else old(form).(password := value)
      ensures error == Str("") && loading == old(loading)
    {
      form := if name == Email then form.(email := value) else form.(password := value);
      error := Str("");
    }

    /** `handleSubmit`, given the outcome of the login POST: with both tokens the
        page stores them and schedules the dashboard 500 ms later; otherwise it
        stores nothing, navigates nowhere and shows the error text. */
    method HandleSubmit(store: TokenStore, router: Router, response: Result<Json, JsError>)
      modifies this, store, router
      ensures !loading && form == old(form)
      ensures match Outcome(response)
        case Ok(tokens) =>
          store.accessToken == Some(tokens.0) && store.refreshToken == Some(tokens.1) &&
          router.log == old(router.log) + [PushAfter("/dashboard", 500)] && error == Str("")
        case Err(e) =>
          store.accessToken == old(store.accessToken) && store.refreshToken == old(store.refreshToken) &&
          router.log == old(router.log) && error == ErrorMessage(e)
    {
      loading := true;
      error := Str("");
      match Outcome(response) {
        case Ok(tokens) =>
          store.SetItem(AccessToken, tokens.0);
          store.SetItem(RefreshToken, tokens.1);
          router.Go(PushAfter("/dashboard", 500));
        case Err(e) =>
          error := ErrorMessage(e);
      }
      loading := false;
    }
  }
}
