/**
 * The route table of `src/App.jsx`: a path and the browser storage decide
 * whether a screen renders or the router is sent elsewhere. The only storage
 * read is the `email` key.
 */
module App {
  import opened JsValues
  import opened BrowserStorage

  /** The screens the route table can render. */
  datatype Screen =
    | AuthScreen
    | DashboardScreen
    | UploadScreen
    | ReportsScreen
    | ReportDetailsScreen(id: string)
    | ProfileScreen
    | SettingsScreen

  /** What a route element does: render a screen, or `<Navigate to=... replace />`. */
  datatype Element = Render(screen: Screen) | Redirect(to: string)

  /** `Boolean(localStorage.getItem("email"))`. */
  predicate IsLoggedIn(items: map<string, string>)
  {
    Truthy(StoredValue(Lookup(items, "email")))
  }

  /** Logged in exactly when the `email` key is present with a non-empty value. */
  lemma LoggedInIff(items: map<string, string>)
    ensures IsLoggedIn(items) <==> "email" in items && items["email"] != ""
  {
  }

  /** `PublicRoute`: a logged-in user is sent to the dashboard instead. */
  function PublicRoute(loggedIn: bool, child: Screen): (e: Element)
    ensures e.Redirect? <==> loggedIn
    ensures e.Redirect? ==> e.to == "/dashboard"
    ensures e.Render? ==> e.screen == child
  {
    if loggedIn then Redirect("/dashboard") else Render(child)
  }

  /** `ProtectedRoute`: a logged-out user is sent to the sign-in page instead. */
  function ProtectedRoute(loggedIn: bool, child: Screen): (e: Element)
    ensures e.Render? <==> loggedIn
    ensures e.Render? ==> e.screen == child
    ensures e.Redirect? ==> e.to == "/"
  {
    if loggedIn then Render(child) else Redirect("/")
  }

  const ReportPrefix := "/report/"

  /** The screen a protected path names: the five fixed paths and `/report/:id` with a one-segment id. */
  function MatchProtected(path: string): (s: Option<Screen>)
    ensures s.Some? ==> s.value != AuthScreen
    ensures s.Some? && s.value.ReportDetailsScreen? ==>
      path == ReportPrefix + s.value.id && s.value.id != "" && '/' !in s.value.id
  {
    if path == "/dashboard" then Some(DashboardScreen)
    else if path == "/upload" then Some(UploadScreen)
    else if path == "/reports" then Some(ReportsScreen)
    else if path == "/profile" then Some(ProfileScreen)
    else if path == "/settings" then Some(SettingsScreen)
    else if |path| > |ReportPrefix| && path[..|ReportPrefix|] == ReportPrefix && '/' !in path[|ReportPrefix|..] then
      Some(ReportDetailsScreen(path[|ReportPrefix|..]))
    else None
  }

  predicate IsPublicPath(path: string)
  {
    path == "/" || path == "/register"
  }

  /** The route table with its `*` fallback. */
  function Route(path: string, items: map<string, string>): (e: Element)
    ensures IsPublicPath(path) ==> e == PublicRoute(IsLoggedIn(items), AuthScreen)
    ensures !IsPublicPath(path) && MatchProtected(path).Some? ==>
      e == ProtectedRoute(IsLoggedIn(items), MatchProtected(path).value)
    ensures !IsPublicPath(path) && MatchProtected(path).None? ==> e == Redirect("/")
  {
    if IsPublicPath(path) then PublicRoute(IsLoggedIn(items), AuthScreen)
    else match MatchProtected(path)
      case Some(s) => ProtectedRoute(IsLoggedIn(items), s)
      case None => Redirect("/")
  }

  /** Every redirect goes to "/" or to "/dashboard". */
  lemma RedirectTargets(path: string, items: map<string, string>)
    ensures Route(path, items).Redirect? ==> Route(path, items).to in {"/", "/dashboard"}
  {
  }

  /** The screen reached from `path` after following at most `hops` redirects. */
  function Resolve(path: string, items: map<string, string>, hops: nat): (s: Option<Screen>)
    ensures Route(path, items).Render? ==> s == Some(Route(path, items).screen)
    ensures hops == 0 && Route(path, items).Redirect? ==> s == None
    decreases hops
  {
    match Route(path, items)
    case Render(screen) => Some(screen)
    case Redirect(to) => if hops == 0 then None else Resolve(to, items, hops - 1)
  }

  /** Following redirects reaches a rendered screen within two hops, from any path. */
  lemma TwoHopsSuffice(path: string, items: map<string, string>)
    ensures Resolve(path, items, 2).Some?
  {
    if Route(path, items).Redirect? {
      assert Route(path, items).to in {"/", "/dashboard"};
      assert Route("/dashboard", items) == ProtectedRoute(IsLoggedIn(items), DashboardScreen);
    }
  }

  /** Two hops are needed: a logged-in user on an unknown path goes to "/" and then to "/dashboard". */
  lemma OneHopIsNotEnough(items: map<string, string>)
    requires IsLoggedIn(items)
    ensures Resolve("/nowhere", items, 1) == None
    ensures Resolve("/nowhere", items, 2) == Some(DashboardScreen)
  {
    assert MatchProtected("/nowhere").None? by {
      assert "/nowhere"[..|ReportPrefix|] != ReportPrefix by {
        assert "/nowhere"[1] != ReportPrefix[1];
      }
    }
    assert Route("/dashboard", items) == Render(DashboardScreen);
  }

  /** Logged out, the only screen any path ever renders is the sign-in screen. */
  lemma {:induction false} LoggedOutRendersOnlyAuth(path: string, items: map<string, string>, hops: nat)
    requires !IsLoggedIn(items)
    ensures Resolve(path, items, hops).Some? ==> Resolve(path, items, hops) == Some(AuthScreen)
    decreases hops
  {
    if Route(path, items).Redirect? && hops > 0 {
      LoggedOutRendersOnlyAuth(Route(path, items).to, items, hops - 1);
    }
  }

  /** Logged in, a protected path renders its own screen at once, and the sign-in screen is never reached. */
  lemma {:induction false} LoggedInNeverRendersAuth(path: string, items: map<string, string>, hops: nat)
    requires IsLoggedIn(items)
    ensures MatchProtected(path).Some? && !IsPublicPath(path) ==> Resolve(path, items, 0) == MatchProtected(path)
    ensures Resolve(path, items, hops) != Some(AuthScreen)
    decreases hops
  {
    if Route(path, items).Redirect? && hops > 0 {
      LoggedInNeverRendersAuth(Route(path, items).to, items, hops - 1);
    }
  }

  /** Routing reads nothing from storage but the `email` key. */
  lemma RoutingDependsOnlyOnEmail(path: string, a: map<string, string>, b: map<string, string>)
    requires Lookup(a, "email") == Lookup(b, "email")
    ensures Route(path, a) == Route(path, b)
  {
  }
}
