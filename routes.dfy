/** Route access control: the route table of `App`, the three guards
    (`PrivateRoute`, `PublicRoute`, `AuthAwareRoute`) and the provider that
    wraps them all. A path is given as its list of segments ("/platform/x"
    is ["platform", "x"], "/" is []). */
module Routes {
  import opened Basics
  import opened Backend
  import opened Auth

  type Path = seq<string>

  datatype Guard = PublicGuard | PrivateGuard | AuthAwareGuard

  datatype Page = LandingPage | SignupPage | LoginPage | HomePage | SettingsPage | PlatformEmailsPage | PricingPage

  /** A segment of a route pattern: a fixed word, or `:param`. */
  datatype Segment = Lit(text: string) | Param

  datatype Route = Route(pattern: seq<Segment>, guard: Guard, page: Page)

  const LOGIN_PATH: Path := ["login"]
  const HOME_PATH: Path := ["home"]

  /** The `<Routes>` of `App`. */
  const ROUTES: seq<Route> := [
    Route([], PublicGuard, LandingPage),
    Route([Lit("signup")], PublicGuard, SignupPage),
    Route([Lit("login")], PublicGuard, LoginPage),
    Route([Lit("home")], PrivateGuard, HomePage),
    Route([Lit("settings")], PrivateGuard, SettingsPage),
    Route([Lit("platform"), Param], PrivateGuard, PlatformEmailsPage),
    Route([Lit("pricing")], AuthAwareGuard, PricingPage)
  ]

  predicate SegmentMatches(s: Segment, segment: string) {
    if s.Lit? then segment == s.text else segment != ""
  }

  predicate Matches(pattern: seq<Segment>, path: Path) {
    |pattern| == |path| && forall k :: 0 <= k < |path| ==> SegmentMatches(pattern[k], path[k])
  }

  /** The route a path selects, if any. */
  function Lookup(path: Path): (r: Option<Route>)
    ensures r.Some? ==> r.value in ROUTES && Matches(r.value.pattern, path)
    ensures r.None? <==> forall i :: 0 <= i < |ROUTES| ==> !Matches(ROUTES[i].pattern, path)
  {
    LookupIn(ROUTES, path)
  }

  function LookupIn(routes: seq<Route>, path: Path): (r: Option<Route>)
    ensures r.Some? ==> r.value in routes && Matches(r.value.pattern, path)
    ensures r.None? <==> forall i :: 0 <= i < |routes| ==> !Matches(routes[i].pattern, path)
  {
    if routes == [] then None
    else if Matches(routes[0].pattern, path) then Some(routes[0])
    else LookupIn(routes[1..], path)
  }

  /** The only entry of the table a path can match, read off its first
      segment. */
  function RouteIndex(path: Path): nat {
    if |path| == 0 then 0
    else if path[0] == "signup" then 1
    else if path[0] == "login" then 2
    else if path[0] == "home" then 3
    else if path[0] == "settings" then 4
    else if path[0] == "platform" then 5
    else 6
  }

  lemma MatchIndex(path: Path, i: nat)
    requires i < |ROUTES|
    ensures Matches(ROUTES[i].pattern, path) ==> i == RouteIndex(path)
  {
    if Matches(ROUTES[i].pattern, path) && |path| >= 1 {
      assert SegmentMatches(ROUTES[i].pattern[0], path[0]);
    }
  }

  /** No path matches two routes, so the order of the table (or the
      router's ranking of routes) cannot change which route is chosen. */
  lemma RoutesDisjoint(path: Path, i: nat, j: nat)
    requires i < |ROUTES| && j < |ROUTES|
    requires Matches(ROUTES[i].pattern, path) && Matches(ROUTES[j].pattern, path)
    ensures i == j
  {
    MatchIndex(path, i);
    MatchIndex(path, j);
  }

  /** The first route of `routes` that matches is chosen. */
  lemma {:induction false} LookupInFirst(routes: seq<Route>, path: Path, i: nat)
    requires i < |routes| && Matches(routes[i].pattern, path)
    requires forall j :: 0 <= j < i ==> !Matches(routes[j].pattern, path)
    ensures LookupIn(routes, path) == Some(routes[i])
  {
    if i > 0 {
      assert !Matches(routes[0].pattern, path);
      LookupInFirst(routes[1..], path, i - 1);
    }
  }

  /** A path matching the i-th route selects it. */
  lemma LookupAt(path: Path, i: nat)
    requires i < |ROUTES| && Matches(ROUTES[i].pattern, path)
    ensures Lookup(path) == Some(ROUTES[i])
  {
    MatchIndex(path, i);
    forall j | 0 <= j < i ensures !Matches(ROUTES[j].pattern, path) {
      MatchIndex(path, j);
    }
    LookupInFirst(ROUTES, path, i);
  }

  /** "/", "/signup" and "/login" are public. */
  lemma PublicPaths()
    ensures IsPublicPath([]) && Lookup([]).value.page == LandingPage
    ensures IsPublicPath(["signup"]) && Lookup(["signup"]).value.page == SignupPage
    ensures IsPublicPath(LOGIN_PATH) && Lookup(LOGIN_PATH).value.page == LoginPage
  {
    LookupAt([], 0);
    LookupAt(["signup"], 1);
    LookupAt(LOGIN_PATH, 2);
  }

  /** "/home" and "/settings" are private. */
  lemma PrivatePaths()
    ensures IsPrivatePath(HOME_PATH) && Lookup(HOME_PATH).value.page == HomePage
    ensures IsPrivatePath(["settings"]) && Lookup(["settings"]).value.page == SettingsPage
  {
    LookupAt(HOME_PATH, 3);
    LookupAt(["settings"], 4);
  }

  /** "/platform/:platform" is private, for any non-empty platform. */
  lemma PlatformPath(platform: string)
    requires platform != ""
    ensures IsPrivatePath(["platform", platform])
    ensures Lookup(["platform", platform]).value.page == PlatformEmailsPage
  {
    var p := ["platform", platform];
    assert SegmentMatches(ROUTES[5].pattern[1], p[1]);
    LookupAt(p, 5);
  }

  /** "/platform" with no platform, or with an extra segment, matches no
      route. */
  lemma PlatformNeedsOneSegment(rest: Path)
    ensures Lookup(["platform"]).None?
    ensures |rest| >= 2 ==> Lookup(["platform"] + rest).None?
  {
    forall i | 0 <= i < |ROUTES| ensures !Matches(ROUTES[i].pattern, ["platform"]) {
      MatchIndex(["platform"], i);
    }
    if |rest| >= 2 {
      var p := ["platform"] + rest;
      assert p[0] == "platform";
      forall i | 0 <= i < |ROUTES| ensures !Matches(ROUTES[i].pattern, p) {
        MatchIndex(p, i);
      }
    }
  }

  // ---------------------------------------------------------------------
  // The guards

  datatype Topbar = PublicTopbar | PrivateTopbar

  /** What a guard renders besides its top bar: the matched child route
      (`<Outlet />`) or the element it wraps. */
  datatype Content = Outlet | Children(page: Page)

  datatype Render = Nothing | Redirect(to: Path) | Frame(topbar: Topbar, content: Content)

  /** `PrivateRoute` */
  function PrivateRoute(loading: bool, currentUser: Option<User>): (r: Render)
    ensures loading ==> r == Nothing
    ensures !loading && currentUser.None? ==> r == Redirect(LOGIN_PATH)
    ensures !loading && currentUser.Some? ==> r == Frame(PrivateTopbar, Outlet)
    ensures r.Frame? ==> currentUser.Some?
  {
    if loading then Nothing
    else if currentUser.None? then Redirect(LOGIN_PATH)
    else Frame(PrivateTopbar, Outlet)
  }

  /** `PublicRoute` */
  function PublicRoute(loading: bool, currentUser: Option<User>, children: Option<Page>): (r: Render)
    ensures loading ==> r == Nothing
    ensures !loading && currentUser.Some? ==> r == Redirect(HOME_PATH)
    ensures !loading && currentUser.None? ==>
      r == Frame(PublicTopbar, if children.Some? then Children(children.value) else Outlet)
    ensures r.Frame? ==> currentUser.None?
  {
    if loading then Nothing
    else if currentUser.Some? then Redirect(HOME_PATH)
    else Frame(PublicTopbar, if children.Some? then Children(children.value) else Outlet)
  }

  /** `AuthAwareRoute` */
  function AuthAwareRoute(loading: bool, currentUser: Option<User>, children: Page): (r: Render)
    ensures loading <==> r == Nothing
    ensures !r.Redirect?
    ensures !loading ==> r.Frame? && r.content == Children(children)
    ensures r.Frame? ==> (r.topbar == PrivateTopbar <==> currentUser.Some?)
  {
    if loading then Nothing
    else Frame(if currentUser.Some? then PrivateTopbar else PublicTopbar, Children(children))
  }

  // ---------------------------------------------------------------------
  // The whole application

  /** What the browser ends up showing for a path. */
  datatype Screen = Blank | Navigate(to: Path) | Show(topbar: Topbar, page: Page) | NoMatch

  /** The router's choice for a path, under a given auth state: nothing
      for a path no route matches, a blank screen while loading, a
      redirect to the login or home page, or the matched route's own page. */
  function Resolve(path: Path, s: AuthState): (r: Screen)
    ensures r == NoMatch <==> Lookup(path).None?
    ensures r == Blank <==> Lookup(path).Some? && s.loading
    ensures r.Navigate? ==> r.to == LOGIN_PATH || r.to == HOME_PATH
    ensures r.Show? ==> Lookup(path).Some? && r.page == Lookup(path).value.page
    ensures r.Show? && r.topbar == PrivateTopbar ==> s.currentUser.Some?
  {
    var route := Lookup(path);
    if route.None? then NoMatch
    else
      var render :=
        match route.value.guard
        case PublicGuard => PublicRoute(s.loading, s.currentUser, Some(route.value.page))
        case PrivateGuard => PrivateRoute(s.loading, s.currentUser)
        case AuthAwareGuard => AuthAwareRoute(s.loading, s.currentUser, route.value.page);
      match render
      case Nothing => Blank
      case Redirect(to) => Navigate(to)
      case Frame(topbar, content) => Show(topbar, if content.Children? then content.page else route.value.page)
  }

  /** `App`: one `AuthProvider` around the whole router. The provider
      renders its children only once `loading` is false, and every guard
      reads the one state it provides. */
  function AppView(path: Path, s: AuthState): (v: Screen)
    ensures s.loading <==> v == Blank
  {
    if s.loading then Blank
    else
      var v := Resolve(path, s);
      assert v != Blank by {
        var route := Lookup(path);
        if route.Some? {
          assert route.value.guard == PublicGuard || route.value.guard == PrivateGuard
              || route.value.guard == AuthAwareGuard;
        }
      }
      v
  }

  predicate IsPrivatePath(path: Path) {
    Lookup(path).Some? && Lookup(path).value.guard == PrivateGuard
  }

  predicate IsPublicPath(path: Path) {
    Lookup(path).Some? && Lookup(path).value.guard == PublicGuard
  }

  /** A signed-out visitor to any private path is sent to /login, and
      /login then shows the login page under the public top bar. */
  lemma SignedOutPrivateGoesToLogin(path: Path, s: AuthState)
    requires IsPrivatePath(path)
    requires !s.loading && s.currentUser.None?
    ensures AppView(path, s) == Navigate(LOGIN_PATH)
    ensures AppView(LOGIN_PATH, s) == Show(PublicTopbar, LoginPage)
  {
    LookupAt(LOGIN_PATH, 2);
  }

  /** A signed-in visitor to any public path is sent to /home, and /home
      then shows the home page under the private top bar. */
  lemma SignedInPublicGoesHome(path: Path, s: AuthState)
    requires IsPublicPath(path)
    requires !s.loading && s.currentUser.Some?
    ensures AppView(path, s) == Navigate(HOME_PATH)
    ensures AppView(HOME_PATH, s) == Show(PrivateTopbar, HomePage)
  {
    LookupAt(HOME_PATH, 3);
  }

  /** The page behind a private path is shown only to a signed-in user,
      and always under the private top bar. */
  lemma PrivatePageNeedsUser(path: Path, s: AuthState)
    requires IsPrivatePath(path)
    ensures AppView(path, s).Show? <==> !s.loading && s.currentUser.Some?
    ensures AppView(path, s).Show? ==> AppView(path, s) == Show(PrivateTopbar, Lookup(path).value.page)
  {
  }

  /** /pricing never redirects: once loaded it shows the pricing page, with
      the top bar that matches the auth state. */
  lemma PricingNeverRedirects(s: AuthState)
    ensures !AppView(["pricing"], s).Navigate?
    ensures !s.loading ==>
      AppView(["pricing"], s) == Show(if s.currentUser.Some? then PrivateTopbar else PublicTopbar, PricingPage)
  {
    LookupAt(["pricing"], 6);
  }

  /** Redirects settle after one hop: the target of any redirect is itself
      shown, so no path loops. */
  lemma RedirectsSettle(path: Path, s: AuthState)
    requires AppView(path, s).Navigate?
    ensures AppView(AppView(path, s).to, s).Show?
  {
    var route := Lookup(path);
    assert !s.loading && route.Some?;
    if s.currentUser.Some? {
      assert route.value.guard == PublicGuard;
      LookupAt(HOME_PATH, 3);
    } else {
      assert route.value.guard == PrivateGuard;
      LookupAt(LOGIN_PATH, 2);
    }
  }

  /** A signed-out visitor whose password sign-in is rejected: `login`
      leaves `loading` raised, so the provider renders nothing on any path,
      the login page included. */
  method RejectedLoginBlanksApp(lookup: Response<UserRecord>, path: Path) returns (view: Screen)
    ensures view == Blank
  {
    var session := new AuthSession();
    var lookedUp := session.AuthStateChanged(None, lookup);
    var thrown, loginLookup := session.Login(None, lookup);
    view := AppView(path, session.State());
  }

  /** With `loading` lowered on every path, the same rejection leaves the
      visitor on the login page. */
  method RejectedLoginKeepsLoginPage(lookup: Response<UserRecord>) returns (view: Screen)
    ensures view == Show(PublicTopbar, LoginPage)
  {
    var session := new AuthSession();
    var lookedUp := session.AuthStateChanged(None, lookup);
    var thrown, loginLookup := session.LoginResettingLoading(None, lookup);
    view := AppView(LOGIN_PATH, session.State());
    LookupAt(LOGIN_PATH, 2);
  }
}
