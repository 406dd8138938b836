/** The shared axios instance: a request interceptor that attaches the stored
    access token as a bearer credential (section 2.1 of RFC 6750), and a response
    interceptor that answers a 401 (section 15.5.2 of RFC 9110) with one
    refresh-and-retry, or with a logout when that is impossible or fails. */
module ApiClient {
  import opened Wrappers
  import opened Js
  import opened Text
  import opened Browser
  import Lists
  import Api

  /** The parts of an axios request config the interceptors read or write:
      the URL, the `Authorization` header and the `_retry` marker. */
  datatype Request = Request(url: string, authorization: Option<string>, retried: bool)

  /** One exchange with the server: a request sent through the instance, or the
      direct `axios.post` to the refresh endpoint (which bypasses the interceptors). */
  datatype Call = Api(request: Request) | Refresh(refreshToken: string)

  /** What the server does with a call: a 2xx response with its body, or a rejection. */
  datatype Reply = Respond(data: Json) | Reject(error: JsError)

  /** The next scripted reply; a server whose script is exhausted no longer answers. */
  function NextReply(script: seq<Reply>): Reply {
    if script == [] then Reject(NetworkError) else script[0]
  }

  function RestOf(script: seq<Reply>): seq<Reply> {
    if script == [] then [] else script[1..]
  }

  /** The header value `Bearer ${token}`. */
  function Bearer(token: string): string {
    "Bearer " + token
  }

  /** The request interceptor: with a stored (non-empty) access token the header is
      set to its bearer form; otherwise the request is left as it was. */
  function Authorize(req: Request, stored: Option<string>): (r: Request)
    ensures r.url == req.url && r.retried == req.retried
    ensures Present(stored) ==> r.authorization == Some("Bearer " + stored.value)
    ensures !Present(stored) ==> r == req
  {
    if Present(stored) then req.(authorization := Some(Bearer(stored.value))) else req
  }

  /** The URLs on which the response interceptor never attempts recovery. */
  predicate IsAuthEndpoint(url: string) {
    Includes(url, "/auth/login") || Includes(url, "/auth/register") || Includes(url, "/auth/refresh")
  }

  /** The login and registration wrappers post to authentication paths, so a
      failure there is never recovered; neither is a failure on any URL that
      contains the refresh path. */
  lemma AuthPathsSkipRecovery(url: string, k: nat)
    requires k <= |url| && "/auth/refresh" <= url[k..]
    ensures IsAuthEndpoint(Api.Path(Api.Login)) && IsAuthEndpoint(Api.Path(Api.Register))
    ensures IsAuthEndpoint(url)
  {
    IncludesAt(Api.Path(Api.Login), "/auth/login", 4);
    IncludesAt(Api.Path(Api.Register), "/auth/register", 4);
    IncludesAt(url, "/auth/refresh", k);
  }

  /** Everything a call through the instance can observe or change: the two storage
      entries, the server's remaining script and its log of calls, the navigations. */
  datatype World = World(access: Option<string>, refresh: Option<string>,
                         replies: seq<Reply>, calls: seq<Call>, navs: seq<Nav>)

  /** The overall outcome of a call and the world it leaves behind. */
  datatype Run = Run(outcome: Result<Json, JsError>, world: World)

  function RefreshCount(calls: seq<Call>): nat {
    Lists.Count(calls, (c: Call) => c.Refresh?)
  }

  /** One exchange: the call is logged and the script advances. */
  function Transmit(c: Call, w: World): (w': World)
    ensures w'.calls == w.calls + [c]
    ensures RefreshCount(w'.calls) == RefreshCount(w.calls) + (if c.Refresh? then 1 else 0)
    ensures w'.access == w.access && w'.refresh == w.refresh && w'.navs == w.navs
  {
    Lists.FilterAppend(w.calls, [c], (c: Call) => c.Refresh?);
    w.(replies := RestOf(w.replies), calls := w.calls + [c])
  }

  /** `const { accessToken } = response.data`, as `String(accessToken)`: what the
      refresh path stores and puts in the header. A refresh body that is null or
      undefined makes the destructuring throw. */
  function RefreshedToken(r: Reply): (t: Result<string, JsError>)
    ensures r.Reject? ==> t == Err(r.error)
    ensures r.Respond? && Nullish(r.data) ==> t == Err(TypeError)
    ensures r.Respond? && !Nullish(r.data) && Field(r.data, "accessToken").Str? ==>
              t == Ok(Field(r.data, "accessToken").s)
    ensures r.Respond? && !Nullish(r.data) && Field(r.data, "accessToken") == Undefined ==> t == Ok("undefined")
  {
    match r
    case Reject(e) => Err(e)
    case Respond(d) => if Nullish(d) then Err(TypeError) else Ok(ToJsString(Field(d, "accessToken")))
  }

  /** A call through the instance: request interceptor, exchange, and on a rejection
      the response interceptor. At most one refresh happens per original request,
      none once the request is marked as retried, and the only navigation the
      pipeline can start is the hard redirect to `/login`. */
  function Pipeline(req: Request, w: World): (r: Run)
    ensures w.calls < r.world.calls
    ensures RefreshCount(r.world.calls) <= RefreshCount(w.calls) + (if req.retried then 0 else 1)
    ensures r.world.navs == w.navs || r.world.navs == w.navs + [Assign("/login")]
    ensures r.world.refresh == w.refresh || r.world.refresh == None
    ensures r.outcome.Ok? ==> r.world.navs == w.navs
    decreases if req.retried then 0 else 1, 1
  {
    var sent := Authorize(req, w.access);
    var w1 := Transmit(Api(sent), w);
    match NextReply(w.replies)
    case Respond(data) => Run(Ok(data), w1)
    case Reject(e) => Recover(sent, e, w1)
  }

  /** The response interceptor's error handler for a rejected request. */
  function Recover(req: Request, e: JsError, w: World): (r: Run)
    ensures w.calls <= r.world.calls
    ensures RefreshCount(r.world.calls) <= RefreshCount(w.calls) + (if req.retried then 0 else 1)
    ensures r.world.navs == w.navs || r.world.navs == w.navs + [Assign("/login")]
    ensures r.world.refresh == w.refresh || r.world.refresh == None
    ensures r.outcome.Ok? ==> r.world.navs == w.navs
    decreases if req.retried then 0 else 1, 0
  {
    if IsAuthEndpoint(req.url) then Run(Err(e), w)
    else if Status(e) == Some(401) && !req.retried then
      var marked := req.(retried := true);
      if !Present(w.refresh) then
        Run(Err(e), w.(access := None, navs := w.navs + [Assign("/login")]))
      else
        var w2 := Transmit(Refresh(w.refresh.value), w);
        match RefreshedToken(NextReply(w.replies))
        case Err(refreshError) =>
          Run(Err(refreshError), w2.(access := None, refresh := None, navs := w2.navs + [Assign("/login")]))
        case Ok(token) =>
          Pipeline(marked.(authorization := Some(Bearer(token))), w2.(access := Some(token)))
    else Run(Err(e), w)
  }

  /** A 2xx response is returned as it is and changes nothing but the call log. */
  lemma ResponsePassesThrough(req: Request, w: World)
    requires NextReply(w.replies).Respond?
    ensures Pipeline(req, w) == Run(Ok(NextReply(w.replies).data), Transmit(Api(Authorize(req, w.access)), w))
  {
  }

  /** Every request leaves with the bearer form of the access token stored at send time. */
  lemma SentHeaderIsStoredToken(req: Request, w: World)
    requires Present(w.access)
    ensures Pipeline(req, w).world.calls[|w.calls|] == Api(Request(req.url, Some("Bearer " + w.access.value), req.retried))
  {
  }

  /** A failure on the login, registration or refresh endpoint is returned unchanged,
      with no refresh, no storage change and no redirect. */
  lemma AuthEndpointFailurePassesThrough(req: Request, w: World)
    requires IsAuthEndpoint(req.url)
    requires NextReply(w.replies).Reject?
    ensures var r := Pipeline(req, w);
      && r.outcome == Err(NextReply(w.replies).error)
      && r.world.access == w.access && r.world.refresh == w.refresh && r.world.navs == w.navs
      && r.world.calls == w.calls + [Api(Authorize(req, w.access))]
  {
  }

  /** Failures other than a first 401 (other statuses, no response, or a 401 on a
      request already retried) are returned unchanged and leave storage alone. */
  lemma OtherFailuresPassThrough(req: Request, w: World)
    requires NextReply(w.replies).Reject?
    requires Status(NextReply(w.replies).error) != Some(401) || req.retried
    ensures var r := Pipeline(req, w);
      && r.outcome == Err(NextReply(w.replies).error)
      && r.world.access == w.access && r.world.refresh == w.refresh && r.world.navs == w.navs
      && r.world.calls == w.calls + [Api(Authorize(req, w.access))]
  {
  }

  /** A 401 with no stored refresh token: the access token is removed, a redirect to
      `/login` is recorded, the 401 is returned, and no refresh call is made. */
  lemma UnauthorizedWithoutRefreshToken(req: Request, w: World)
    requires !IsAuthEndpoint(req.url) && !req.retried && !Present(w.refresh)
    requires NextReply(w.replies).Reject? && Status(NextReply(w.replies).error) == Some(401)
    ensures var r := Pipeline(req, w);
      && r.outcome == Err(NextReply(w.replies).error)
      && r.world.access == None && r.world.refresh == w.refresh
      && r.world.navs == w.navs + [Assign("/login")]
      && r.world.calls == w.calls + [Api(Authorize(req, w.access))]
  {
  }

  /** A 401 whose refresh fails: both tokens are removed, a redirect to `/login` is
      recorded, and the refresh error (not the 401) is returned. */
  lemma RefreshFailureLogsOut(req: Request, w: World, refreshError: JsError)
    requires !IsAuthEndpoint(req.url) && !req.retried && Present(w.refresh)
    requires NextReply(w.replies).Reject? && Status(NextReply(w.replies).error) == Some(401)
    requires RefreshedToken(NextReply(RestOf(w.replies))) == Err(refreshError)
    ensures var r := Pipeline(req, w);
      && r.outcome == Err(refreshError)
      && r.world.access == None && r.world.refresh == None
      && r.world.navs == w.navs + [Assign("/login")]
      && r.world.calls == w.calls + [Api(Authorize(req, w.access)), Refresh(w.refresh.value)]
  {
  }

  /** A 401 whose refresh succeeds: the new token is stored, the request is re-sent
      once, marked as retried and carrying the new bearer header, and the re-sent
      request's own outcome (a second 401 included) is the overall outcome. Exactly
      one refresh call is made and nothing is navigated. */
  lemma RefreshThenRetry(req: Request, w: World, token: string)
    requires !IsAuthEndpoint(req.url) && !req.retried && Present(w.refresh)
    requires NextReply(w.replies).Reject? && Status(NextReply(w.replies).error) == Some(401)
    requires RefreshedToken(NextReply(RestOf(w.replies))) == Ok(token)
    ensures var r := Pipeline(req, w);
      && r.world.access == Some(token) && r.world.refresh == w.refresh && r.world.navs == w.navs
      && r.world.calls == w.calls + [Api(Authorize(req, w.access)), Refresh(w.refresh.value),
                                     Api(Request(req.url, Some("Bearer " + token), true))]
      && r.world.replies == RestOf(RestOf(RestOf(w.replies)))
      && r.outcome == match NextReply(RestOf(RestOf(w.replies)))
                      case Respond(d) => Ok(d)
                      case Reject(retryError) => Err(retryError)
  {
    var sent := Authorize(req, w.access);
    var w1 := Transmit(Api(sent), w);
    assert Pipeline(req, w) == Recover(sent, NextReply(w.replies).error, w1);
    var w2 := Transmit(Refresh(w.refresh.value), w1);
    var retry := Request(req.url, Some(Bearer(token)), true);
    assert Recover(sent, NextReply(w.replies).error, w1) == Pipeline(retry, w2.(access := Some(token)));
    var w3 := w2.(access := Some(token));
    assert Authorize(retry, w3.access) == retry;
    var w4 := Transmit(Api(retry), w3);
    match NextReply(w3.replies)
    case Respond(d) =>
    case Reject(e2) =>
      assert Pipeline(retry, w3) == Recover(retry, e2, w4);
  }

  /** The network, as a script of replies consumed in order and a log of calls. */
  class Server {
    var replies: seq<Reply>
    var calls: seq<Call>

    constructor (script: seq<Reply>)
      ensures replies == script && calls == []
    {
      replies, calls := script, [];
    }

    method Exchange(c: Call) returns (r: Reply)
      modifies this
      ensures r == NextReply(old(replies))
      ensures replies == RestOf(old(replies)) && calls == old(calls) + [c]
    {
      r := NextReply(replies);
      replies := RestOf(replies);
      calls := calls + [c];
    }
  }

  /** `apiClient`: the instance with its two interceptors. */
  class Client {
    const store: TokenStore
    const server: Server
    const router: Router

    constructor (store: TokenStore, server: Server, router: Router)
      ensures this.store == store && this.server == server && this.router == router
    {
      this.store, this.server, this.router := store, server, router;
    }

    ghost function State(): World
      reads store, server, router
    {
      World(store.accessToken, store.refreshToken, server.replies, server.calls, router.log)
    }

    /** `apiClient(config)`. */
    method Send(req: Request) returns (out: Result<Json, JsError>)
      modifies store, server, router
      ensures Run(out, State()) == Pipeline(req, old(State()))
      decreases if req.retried then 0 else 1, 1
    {
      var sent := req;
      var token := store.GetItem(AccessToken);
      if Present(token) {
        sent := sent.(authorization := Some(Bearer(token.value)));
      }
      var reply := server.Exchange(Api(sent));
      match reply {
        case Respond(data) =>
          out := Ok(data);
        case Reject(e) =>
          out := OnRejected(sent, e);
      }
    }

    /** The response interceptor's error handler. */
    method OnRejected(original: Request, error: JsError) returns (out: Result<Json, JsError>)
      modifies store, server, router
      ensures Run(out, State()) == Recover(original, error, old(State()))
      decreases if original.retried then 0 else 1, 0
    {
      ghost var before := State();
      if IsAuthEndpoint(original.url) {
        return Err(error);
      }
      if Status(error) == Some(401) && !original.retried {
        var request := original.(retried := true);
        var refreshToken := store.GetItem(RefreshToken);
        if !Present(refreshToken) {
          store.RemoveItem(AccessToken);
          router.Go(Assign("/login"));
          return Err(error);
        }
        var reply := server.Exchange(Refresh(refreshToken.value));
        var token := RefreshedToken(reply);
        if token.Err? {
          store.RemoveItem(AccessToken);
          store.RemoveItem(RefreshToken);
          router.Go(Assign("/login"));
          return Err(token.error);
        }
        assert State() == Transmit(Refresh(refreshToken.value), before);
        store.SetItem(AccessToken, token.value);
        assert store.GetItem(RefreshToken) == before.refresh;
        assert State() == Transmit(Refresh(refreshToken.value), before).(access := Some(token.value));
        request := request.(authorization := Some(Bearer(token.value)));
        out := Send(request);
        return;
      }
      return Err(error);
    }
  }
}
