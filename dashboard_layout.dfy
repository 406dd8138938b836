/** The dashboard shell: the authentication guard that runs when it mounts, the
    logout action, the navigation lists and the user badge in the header. */
module DashboardLayout {
  import opened Wrappers
  import opened Js
  import opened Browser
  import opened Records
  import opened ApiClient
  import Api
  import Text

  datatype NavItem = NavItem(name: string, href: string)

  const Navigation: seq<NavItem> := [
    NavItem("Dashboard", "/dashboard"),
    NavItem("Mon Adresse USA", "/dashboard/my-address"),
    NavItem("Mes Colis", "/dashboard/parcels"),
    NavItem("Historique", "/dashboard/history"),
    NavItem("Factures", "/dashboard/invoices"),
    NavItem("Profil", "/dashboard/profile")
  ]

  /** `navigation.slice(0, 5)`: the bottom bar on small screens, which has every
      entry except the profile. */
  function MobileNavigation(): (r: seq<NavItem>)
    ensures |r| == 5 && r <= Navigation
    ensures forall item :: item in r <==> item in Navigation && item.name != "Profil"
  {
    Navigation[..5]
  }

  /** `pathname === item.href`. */
  predicate IsActive(pathname: string, item: NavItem)
    ensures IsActive(pathname, item) ==> item.href == pathname
    ensures item.href < pathname ==> !IsActive(pathname, item)
  {
    pathname == item.href
  }

  /** The navigation entries have distinct targets, so at most one is highlighted
      for any path. */
  lemma AtMostOneActive(pathname: string, i: nat, j: nat)
    requires i < |Navigation| && j < |Navigation|
    requires IsActive(pathname, Navigation[i]) && IsActive(pathname, Navigation[j])
    ensures i == j
  {
  }

  /** The bottom-bar label: the two long names are shortened, the rest kept. */
  function MobileLabel(name: string): (r: string)
    ensures name == "Mon Adresse USA" ==> r == "Adresse"
    ensures name == "Mes Colis" ==> r == "Colis"
    ensures name != "Mon Adresse USA" && name != "Mes Colis" ==> r == name
  {
    if name == "Mon Adresse USA" then "Adresse" else if name == "Mes Colis" then "Colis" else name
  }

  /** The lengths of the five bottom-bar labels. */
  const MobileLabelLengths: seq<int> := [9, 7, 5, 10, 8]

  lemma MobileLabelLength(i: nat)
    requires i < 5
    ensures |MobileLabel(MobileNavigation()[i].name)| == MobileLabelLengths[i]
  {
    assert MobileNavigation()[i] == Navigation[i];
  }

  /** The bottom bar's labels are pairwise distinct. */
  lemma MobileLabelsDistinct(i: nat, j: nat)
    requires i < 5 && j < 5 && i != j
    ensures MobileLabel(MobileNavigation()[i].name) != MobileLabel(MobileNavigation()[j].name)
  {
    MobileLabelLength(i);
    MobileLabelLength(j);
  }

  /** `value?.[key]` read as a string field; a field that is not a string counts as absent. */
  function TextField(v: Json, key: string): Option<string> {
    match Field(v, key)
    case Str(s) => Some(s)
    case _ => None
  }

  /** The profile object `getMe` resolved with, read through the fields the header uses. */
  function ProfileOf(v: Json): (r: Option<User>)
    ensures r.None? <==> !Truthy(v)
  {
    if !Truthy(v) then None
    else Some(User(TextField(v, "firstName"), TextField(v, "first_name"),
                   TextField(v, "lastName"), TextField(v, "last_name")))
  }

  /** `user?.firstName || user?.first_name || 'Utilisateur'`. */
  function DisplayName(user: Option<User>): (r: string)
    ensures r != ""
    ensures user.Some? && Filled(user.value.firstName) ==> r == user.value.firstName.value
    ensures user.Some? && !Filled(user.value.firstName) && Filled(user.value.first_name) ==>
              r == user.value.first_name.value
    ensures user.None? || (!Filled(user.value.firstName) && !Filled(user.value.first_name)) ==>
              r == "Utilisateur"
  {
    if user.Some? && Prefer(user.value.firstName, user.value.first_name) != "" then
      Prefer(user.value.firstName, user.value.first_name)
    else "Utilisateur"
  }

  /** `user?.firstName?.[0] || user?.first_name?.[0] || 'U'`. */
  function AvatarLetter(user: Option<User>): (r: string)
    ensures |r| == 1
  {
    if user.Some? && Filled(user.value.firstName) then [user.value.firstName.value[0]]
    else if user.Some? && Filled(user.value.first_name) then [user.value.first_name.value[0]]
    else "U"
  }

  /** The avatar is always the first letter of the displayed name; with no name it is
      the "U" of "Utilisateur". */
  lemma AvatarIsInitial(user: Option<User>)
    ensures AvatarLetter(user) == DisplayName(user)[..1]
  {
  }

  /** The profile request the guard sends. */
  const MeRequest := Request(Api.Path(Api.GetMe), None, false)

  /** `getMe()` rejects with a 401, whatever the interceptor did on the way. */
  predicate ProfileRejectedWith401(w: World) {
    var me := Api.Call(Api.GetMe, Pipeline(MeRequest, w).outcome);
    me.Err? && Status(me.error) == Some(401)
  }

  /** The guard's effect on the session world: without a token, a push to `/login`
      and no request; otherwise the profile call through the client, and on a 401
      (after whatever the interceptor did) both tokens cleared and a push to `/login`. */
  function GuardWorld(w: World): (r: World)
    ensures !Present(w.access) ==> r.calls == w.calls && r.access == w.access && r.refresh == w.refresh
    ensures !Present(w.access) ==> r.navs == w.navs + [Push("/login")]
    ensures Present(w.access) ==> w.calls < r.calls
    ensures r.refresh == w.refresh || r.refresh == None
    ensures Present(w.access) && ProfileRejectedWith401(w) ==>
              r.access == None && r.refresh == None && |r.navs| > 0 && r.navs[|r.navs| - 1] == Push("/login")
    ensures Present(w.access) && !ProfileRejectedWith401(w) ==> r == Pipeline(MeRequest, w).world
  {
    if !Present(w.access) then w.(navs := w.navs + [Push("/login")])
    else
      var run := Pipeline(MeRequest, w);
      if ProfileRejectedWith401(w) then
        run.world.(access := None, refresh := None, navs := run.world.navs + [Push("/login")])
      else run.world
  }

  /** The profile path contains no "h", so it is none of the authentication paths. */
  lemma MeIsNotAuthEndpoint()
    ensures !IsAuthEndpoint(MeRequest.url)
  {
    assert MeRequest.url == "/api/users/me";
    assert 'h' !in MeRequest.url;
    Text.MissingCharExcludes(MeRequest.url, "/auth/login", 'h');
    Text.MissingCharExcludes(MeRequest.url, "/auth/register", 'h');
    Text.MissingCharExcludes(MeRequest.url, "/auth/refresh", 'h');
  }

  /** A profile request that is refused with 401 while no refresh token is stored
      ends the session twice over: the interceptor assigns `/login`, then the guard
      pushes `/login`, and both tokens are gone. */
  lemma ExpiredSessionRedirectsTwice(w: World)
    requires Present(w.access) && !Present(w.refresh)
    requires NextReply(w.replies).Reject? && Status(NextReply(w.replies).error) == Some(401)
    ensures GuardWorld(w).navs == w.navs + [Assign("/login"), Push("/login")]
    ensures GuardWorld(w).access == None && GuardWorld(w).refresh == None
    ensures GuardWorld(w).calls == w.calls + [Api(Authorize(MeRequest, w.access))]
  {
    MeIsNotAuthEndpoint();
    UnauthorizedWithoutRefreshToken(MeRequest, w);
    var run := Pipeline(MeRequest, w);
    assert run.outcome == Err(NextReply(w.replies).error);
    assert ProfileRejectedWith401(w);
    assert GuardWorld(w) == run.world.(access := None, refresh := None, navs := run.world.navs + [Push("/login")]);
  }

  /** A 401 on the profile request whose refresh is refused with 401 too: the
      interceptor clears both tokens and assigns `/login`, the refresh error reaches
      the guard, and the guard pushes `/login`. */
  lemma RefreshRejectedEndsSession(w: World)
    requires Present(w.access) && Present(w.refresh)
    requires NextReply(w.replies).Reject? && Status(NextReply(w.replies).error) == Some(401)
    requires NextReply(RestOf(w.replies)).Reject? && Status(NextReply(RestOf(w.replies)).error) == Some(401)
    ensures GuardWorld(w).access == None && GuardWorld(w).refresh == None
    ensures GuardWorld(w).navs == w.navs + [Assign("/login"), Push("/login")]
  {
    MeIsNotAuthEndpoint();
    var refreshError := NextReply(RestOf(w.replies)).error;
    assert RefreshedToken(NextReply(RestOf(w.replies))) == Err(refreshError);
    RefreshFailureLogsOut(MeRequest, w, refreshError);
    var run := Pipeline(MeRequest, w);
    assert run.outcome == Err(refreshError) && Status(refreshError) == Some(401);
    assert ProfileRejectedWith401(w);
    assert GuardWorld(w) == run.world.(access := None, refresh := None, navs := run.world.navs + [Push("/login")]);
  }

  /** A 401 on the profile request, a successful refresh, and a 401 again on the
      retried request: the interceptor does not recover a second time and does not
      navigate, so the refreshed session is cleared by the guard alone, which pushes
      `/login`. */
  lemma RetryRejectedEndsSession(w: World, token: string)
    requires Present(w.access) && Present(w.refresh)
    requires NextReply(w.replies).Reject? && Status(NextReply(w.replies).error) == Some(401)
    requires RefreshedToken(NextReply(RestOf(w.replies))) == Ok(token)
    requires var retryReply := NextReply(RestOf(RestOf(w.replies)));
             retryReply.Reject? && Status(retryReply.error) == Some(401)
    ensures GuardWorld(w).access == None && GuardWorld(w).refresh == None
    ensures GuardWorld(w).navs == w.navs + [Push("/login")]
    ensures GuardWorld(w).calls == w.calls + [Api(Authorize(MeRequest, w.access)), Refresh(w.refresh.value),
                                              Api(Request(MeRequest.url, Some("Bearer " + token), true))]
  {
    MeIsNotAuthEndpoint();
    RefreshThenRetry(MeRequest, w, token);
    var run := Pipeline(MeRequest, w);
    assert run.outcome.Err? && Status(run.outcome.error) == Some(401);
    assert ProfileRejectedWith401(w);
    assert GuardWorld(w) == run.world.(access := None, refresh := None, navs := run.world.navs + [Push("/login")]);
  }

  /** A failure other than 401 (a network error, a server error) leaves the session
      and the route as the interceptor left them. */
  lemma OtherGuardFailuresKeepSession(w: World)
    requires Present(w.access)
    requires NextReply(w.replies).Reject? && Status(NextReply(w.replies).error) != Some(401)
    ensures GuardWorld(w).access == w.access && GuardWorld(w).refresh == w.refresh
    ensures GuardWorld(w).navs == w.navs
  {
    MeIsNotAuthEndpoint();
    OtherFailuresPassThrough(MeRequest, w);
  }

  class Layout {
    var user: Json

    constructor ()
      ensures user == Null
    {
      user := Null;
    }

    /** The mount effect: checks the stored token and loads the profile. */
    method CheckAuth(client: Client)
      modifies this, client.store, client.server, client.router
      ensures client.State() == GuardWorld(old(client.State()))
      ensures Present(old(client.store.accessToken)) &&
              Api.Call(Api.GetMe, Pipeline(MeRequest, old(client.State())).outcome).Ok? ==>
                user == Api.Call(Api.GetMe, Pipeline(MeRequest, old(client.State())).outcome).value
      ensures !(Present(old(client.store.accessToken)) &&
                Api.Call(Api.GetMe, Pipeline(MeRequest, old(client.State())).outcome).Ok?) ==>
                user == old(user)
    {
      var token := client.store.GetItem(AccessToken);
      if !Present(token) {
        client.router.Go(Push("/login"));
        return;
      }
      var out := client.Send(MeRequest);
      var me := Api.Call(Api.GetMe, out);
      match me {
        case Ok(data) =>
          user := data;
        case Err(e) =>
          if Status(e) == Some(401) {
            client.store.RemoveItem(AccessToken);
            client.store.RemoveItem(RefreshToken);
            client.router.Go(Push("/login"));
          }
      }
    }

    /** `handleLogout`: both tokens removed and a push to `/login`. */
    method HandleLogout(store: TokenStore, router: Router)
      modifies store, router
      ensures store.accessToken == None && store.refreshToken == None
      ensures router.log == old(router.log) + [Push("/login")]
    {
      store.RemoveItem(AccessToken);
      store.RemoveItem(RefreshToken);
      router.Go(Push("/login"));
    }
  }
}
