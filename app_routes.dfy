/** The router table of src/App.tsx: five exact paths, three of them wrapped
    in the route guard. React Router picks the route whose path matches the
    location, ignoring letter case and trailing slashes; the paths here are
    literal, lower case and pairwise distinct, so at most one route matches
    and the first match is the match. */
module AppRoutes {
  import opened Common
  import opened Guard

  datatype Page = LandingPage | LoginPage | AppPage | OnboardingPage | SettingsPage

  /** The props written on a `<ProtectedRoute>` besides its children:
      `requireOnboarding` is absent on two routes and `false` on one. */
  datatype GuardProps = GuardProps(requireOnboarding: Option<bool>)

  /** A route's `element`: a page, or a page wrapped in the guard. */
  datatype Element = Plain(page: Page) | Guarded(props: GuardProps, page: Page)

  datatype Route = Route(path: string, element: Element)

  const Routes: seq<Route> := [
    Route("/", Plain(LandingPage)),
    Route("/login", Plain(LoginPage)),
    Route("/app", Guarded(GuardProps(None), AppPage)),
    Route("/app/onboarding", Guarded(GuardProps(Some(false)), OnboardingPage)),
    Route("/app/settings", Guarded(GuardProps(None), SettingsPage))
  ]

  /** What the browser shows. */
  datatype Screen =
    | Spinner
    | Redirected(to: string, replace: bool)
    | Show(page: Page)
    | NothingMatched

  /** The route matching `path`, if any. */
  function Lookup(routes: seq<Route>, path: string): (r: Option<Route>)
    ensures r.Some? ==> r.value in routes && r.value.path == path
    ensures r.None? <==> forall i :: 0 <= i < |routes| ==> routes[i].path != path
  {
    if routes == [] then None
    else if routes[0].path == path then Some(routes[0])
    else Lookup(routes[1..], path)
  }

  /** An ASCII letter in lower case; every other character unchanged. */
  function LowerChar(c: char): (l: char)
    ensures !('A' <= l <= 'Z')
    ensures 'A' <= c <= 'Z' ==> l as int == c as int + 32
    ensures !('A' <= c <= 'Z') ==> l == c
  {
    if 'A' <= c <= 'Z' then (c as int + 32) as char else c
  }

  /** The location as the router compares it with a route path: trailing
      slashes dropped (a lone `/` is kept) and letters in lower case. */
  function Normalise(location: string): (n: string)
    ensures |n| <= |location|
    ensures forall i :: 0 <= i < |n| ==> n[i] == LowerChar(location[i])
    ensures forall i :: |n| <= i < |location| ==> location[i] == '/'
    ensures |n| > 1 ==> n[|n| - 1] != '/'
    ensures |location| >= 1 ==> |n| >= 1
    decreases |location|
  {
    if |location| > 1 && location[|location| - 1] == '/' then Normalise(location[..|location| - 1])
    else seq(|location|, i requires 0 <= i < |location| => LowerChar(location[i]))
  }

  /** A location already written the way a route path is, in lower case with
      no trailing slash, is compared as it stands. */
  lemma NormaliseRoutePath(path: string)
    requires |path| >= 1 && (|path| == 1 || path[|path| - 1] != '/')
    requires forall i :: 0 <= i < |path| ==> !('A' <= path[i] <= 'Z')
    ensures Normalise(path) == path
  {
  }

  /** Rendering a route element: the guard's props other than its children
      are never consulted. */
  function RenderElement(e: Element, auth: AuthState): (s: Screen)
    ensures e.Plain? ==> s == Show(e.page)
    ensures e.Guarded? ==> (s == Spinner <==> auth.loading)
    ensures e.Guarded? ==> (s == Redirected(LoginPath, true) <==> !auth.loading && auth.user.None?)
    ensures e.Guarded? ==> (s == Show(e.page) <==> !auth.loading && auth.user.Some?)
  {
    match e
    case Plain(page) => Show(page)
    case Guarded(_, page) =>
      match ProtectedRoute(auth)
      case Pending => Spinner
      case Redirect(to, replace) => Redirected(to, replace)
      case RenderChildren => Show(page)
  }

  /** What the browser ends up showing for a location. */
  function Resolve(location: string, auth: AuthState): (s: Screen)
    ensures s == NothingMatched <==> forall i :: 0 <= i < |Routes| ==> Routes[i].path != Normalise(location)
    ensures s != NothingMatched ==>
              exists r :: r in Routes && r.path == Normalise(location) && s == RenderElement(r.element, auth)
  {
    match Lookup(Routes, Normalise(location))
    case None => NothingMatched
    case Some(route) => RenderElement(route.element, auth)
  }

  /** The table has five routes with pairwise distinct paths. */
  lemma RoutesAreDistinct()
    ensures |Routes| == 5
    ensures forall i, j :: 0 <= i < j < |Routes| ==> Routes[i].path != Routes[j].path
  {
  }

  /** `/` and `/login` are shown whatever the authentication state. */
  lemma PublicPagesUnguarded(auth: AuthState)
    ensures Resolve("/", auth) == Show(LandingPage)
    ensures Resolve("/login", auth) == Show(LoginPage)
  {
    NormaliseRoutePath("/");
    NormaliseRoutePath("/login");
  }

  /** `/app`, `/app/onboarding` and `/app/settings` are each behind the guard,
      the onboarding route with `requireOnboarding={false}`, the other two
      with no extra prop. */
  lemma ProtectedPagesGuarded()
    ensures Lookup(Routes, "/app") == Some(Route("/app", Guarded(GuardProps(None), AppPage)))
    ensures Lookup(Routes, "/app/onboarding")
         == Some(Route("/app/onboarding", Guarded(GuardProps(Some(false)), OnboardingPage)))
    ensures Lookup(Routes, "/app/settings")
         == Some(Route("/app/settings", Guarded(GuardProps(None), SettingsPage)))
  {
  }

  /** `requireOnboarding` cannot change what a guarded route shows. */
  lemma RequireOnboardingIgnored(a: GuardProps, b: GuardProps, page: Page, auth: AuthState)
    ensures RenderElement(Guarded(a, page), auth) == RenderElement(Guarded(b, page), auth)
  {
  }

  /** A signed-out visitor, once the session check is over, sees none of the
      three protected pages on any location: they are sent to `/login`. */
  lemma SignedOutNeverSeesProtectedPage(location: string, auth: AuthState)
    requires !auth.loading && auth.user.None?
    ensures var s := Resolve(location, auth);
            s != Show(AppPage) && s != Show(OnboardingPage) && s != Show(SettingsPage)
    ensures var r := Lookup(Routes, Normalise(location));
            r.Some? && r.value.element.Guarded? ==> Resolve(location, auth) == Redirected(LoginPath, true)
  {
  }

  /** `/App/`, `/APP` and `/app//` reach the same route as `/app`. */
  lemma CaseAndTrailingSlashIgnored(auth: AuthState)
    ensures Resolve("/App/", auth) == Resolve("/app", auth)
    ensures Resolve("/APP", auth) == Resolve("/app", auth)
    ensures Resolve("/app//", auth) == Resolve("/app", auth)
    ensures Resolve("/app", auth) != NothingMatched
  {
    NormaliseRoutePath("/app");
    assert "/app//"[..5] == "/app/" && "/app/"[..4] == "/app";
    assert Normalise("/app//") == Normalise("/app/") == "/app";
    var n1, n2 := Normalise("/App/"), Normalise("/APP");
    assert |n1| == 4 && |n2| == 4;
    assert n1 == "/app" && n2 == "/app";
  }

  /** The login page's signed-in redirect target, `/dashboard`, has no route. */
  lemma DashboardUnrouted(auth: AuthState)
    ensures Lookup(Routes, "/dashboard") == None
    ensures Resolve("/dashboard", auth) == NothingMatched
  {
  }
}
