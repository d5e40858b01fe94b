/** The route table (src/routes/AppRoutes.tsx): seven paths, the four public ones
    rendered directly and the three dashboards each wrapped in a guard for its role. */
module AppRoutes {
  import opened Optional
  import opened Roles
  import opened ProtectedRoute
  import opened Text

  datatype Page =
    | Landing
    | AdminLoginPage | MerchantLoginPage | MemberLoginPage
    | AdminDashboardPage | MerchantDashboardPage | MemberDashboardPage

  /** A route's element: a page, or a page inside `<ProtectedRoute role=...>`. */
  datatype Element = Public(page: Page) | Guarded(role: string, page: Page)

  datatype Route = Route(path: string, element: Element)

  /** What a visit ends in: a page shown, a redirect, or no route matched. */
  datatype Screen = Show(page: Page) | RedirectTo(to: string, from: string, replace: bool) | NoMatch

  function DashboardPath(r: Role): string
  {
    "/dashboard/" + RoleName(r)
  }

  function DashboardPage(r: Role): Page
  {
    match r
    case Admin => AdminDashboardPage
    case Merchant => MerchantDashboardPage
    case Member => MemberDashboardPage
  }

  const Routes: seq<Route> := [
    Route("/", Public(Landing)),
    Route("/login/admin", Public(AdminLoginPage)),
    Route("/login/merchant", Public(MerchantLoginPage)),
    Route("/login/member", Public(MemberLoginPage)),
    Route("/dashboard/admin", Guarded("admin", AdminDashboardPage)),
    Route("/dashboard/merchant", Guarded("merchant", MerchantDashboardPage)),
    Route("/dashboard/member", Guarded("member", MemberDashboardPage))
  ]

  /** `path` with its trailing slashes removed. */
  function TrimTrailingSlashes(path: string): string
    decreases |path|
  {
    if path != "" && path[|path| - 1] == '/' then TrimTrailingSlashes(path[..|path| - 1]) else path
  }

  /** The trimmed path is a prefix of the path, followed there only by slashes,
      and does not itself end in a slash. */
  lemma {:induction false} TrimmedPrefix(path: string)
    ensures var t := TrimTrailingSlashes(path);
            |t| <= |path| && path[..|t|] == t &&
            (forall i :: |t| <= i < |path| ==> path[i] == '/') &&
            (t == "" || t[|t| - 1] != '/')
    decreases |path|
  {
    if path != "" && path[|path| - 1] == '/' {
      var shorter := path[..|path| - 1];
      TrimmedPrefix(shorter);
      var t := TrimTrailingSlashes(shorter);
      assert path[..|t|] == shorter[..|t|];
    }
  }

  /** Equal up to ASCII letter case, as a regular expression with the `i` flag
      compares. */
  predicate EqualIgnoringCase(a: string, b: string)
  {
    |a| == |b| && forall k :: 0 <= k < |a| ==> Lower(a[k]) == Lower(b[k])
  }

  /** Whether a static route pattern matches the location path under the router's
      defaults (`caseSensitive` off, matching to the end): the pattern with trailing
      slashes dropped, in any letter case, then any number of slashes. */
  predicate Matches(routePath: string, path: string)
  {
    EqualIgnoringCase(TrimTrailingSlashes(path), TrimTrailingSlashes(routePath))
  }

  /** The trimmed patterns of the table have pairwise distinct lengths: the root's
      is empty, and every other path keeps its length, as it ends in a letter. */
  lemma RouteKeyLength(i: nat)
    requires i < |Routes|
    ensures |TrimTrailingSlashes(Routes[i].path)| == if i == 0 then 0 else |Routes[i].path|
  {
    if i == 0 {
      assert TrimTrailingSlashes("/") == TrimTrailingSlashes("");
    }
  }

  /** No location path matches two routes of the table, so the router's ranking of
      routes never has to choose between matches. */
  lemma AtMostOneRouteMatches(path: string, i: nat, j: nat)
    requires i < |Routes| && j < |Routes|
    requires Matches(Routes[i].path, path) && Matches(Routes[j].path, path)
    ensures i == j
  {
    RouteKeyLength(i);
    RouteKeyLength(j);
  }

  /** The first route whose pattern matches `path`. */
  function FindRoute(routes: seq<Route>, path: string): (found: Option<Route>)
    ensures found.Some? ==> found.value in routes && Matches(found.value.path, path)
    ensures found.None? ==> forall rt :: rt in routes ==> !Matches(rt.path, path)
    decreases |routes|
  {
    if routes == [] then None
    else if Matches(routes[0].path, path) then Some(routes[0])
    else FindRoute(routes[1..], path)
  }

  /** `FindRoute` returns the route at the first index matching `path`. */
  lemma {:induction false} FindRouteAt(routes: seq<Route>, path: string, i: nat)
    requires i < |routes| && Matches(routes[i].path, path)
    requires forall j :: 0 <= j < i ==> !Matches(routes[j].path, path)
    ensures FindRoute(routes, path) == Some(routes[i])
    decreases i
  {
    if i > 0 {
      FindRouteAt(routes[1..], path, i - 1);
    }
  }

  /** A path matching a route of the table finds that route. */
  lemma FindMatching(path: string, i: nat)
    requires i < |Routes| && Matches(Routes[i].path, path)
    ensures FindRoute(Routes, path) == Some(Routes[i])
  {
    forall j | 0 <= j < i
      ensures !Matches(Routes[j].path, path)
    {
      if Matches(Routes[j].path, path) {
        AtMostOneRouteMatches(path, i, j);
      }
    }
    FindRouteAt(Routes, path, i);
  }

  /** Visiting `path` with the given auth state; the location the guard records is
      the visited path. */
  function Visit(path: string, isAuthenticated: bool, userRole: Option<string>): Screen
  {
    match FindRoute(Routes, path)
    case None => NoMatch
    case Some(rt) =>
      match rt.element
      case Public(p) => Show(p)
      case Guarded(role, p) =>
        match Guard(isAuthenticated, userRole, role, path)
        case RenderChildren => Show(p)
        case Redirect(to, from, replace) => RedirectTo(to, from, replace)
  }

  /** The table has exactly seven routes and no path twice. */
  lemma RoutePathsDistinct()
    ensures |Routes| == 7
    ensures forall i, j :: 0 <= i < j < |Routes| ==> Routes[i].path != Routes[j].path
  {
  }

  /** The landing page and the three login pages are shown to every visitor, on
      every path their patterns match. */
  lemma PublicPathsUnguarded(i: nat, path: string, isAuthenticated: bool, userRole: Option<string>)
    requires i < 4 && Matches(Routes[i].path, path)
    ensures Routes[i].element.Public?
    ensures Visit(path, isAuthenticated, userRole) == Show(Routes[i].element.page)
  {
    var rt := Routes[i];
    assert rt.element.Public?;
    FindMatching(path, i);
    assert FindRoute(Routes, path) == Some(rt);
  }

  /** Letter case and a trailing slash do not matter: "/Login/Admin/" is the admin
      login page. */
  lemma CaseAndTrailingSlashIgnored(isAuthenticated: bool, userRole: Option<string>)
    ensures Visit("/Login/Admin/", isAuthenticated, userRole) == Show(AdminLoginPage)
  {
    var path := "/Login/Admin/";
    assert path[..|path| - 1] == "/Login/Admin";
    assert TrimTrailingSlashes(path) == "/Login/Admin";
    assert TrimTrailingSlashes("/login/admin") == "/login/admin";
    PublicPathsUnguarded(1, path, isAuthenticated, userRole);
  }

  /** Each role's dashboard pattern is bound to that role's dashboard inside a guard
      requiring that same role, for every path it matches. */
  lemma DashboardGuardedByItsRole(r: Role, path: string)
    requires Matches(DashboardPath(r), path)
    ensures FindRoute(Routes, path) == Some(Route(DashboardPath(r), Guarded(RoleName(r), DashboardPage(r))))
  {
    var i := match r case Admin => 4 case Merchant => 5 case Member => 6;
    assert Routes[i] == Route(DashboardPath(r), Guarded(RoleName(r), DashboardPage(r)));
    FindMatching(path, i);
  }

  /** Every guarded route is a dashboard path whose guard requires the role the path names. */
  lemma GuardedRoutesAreDashboards()
    ensures forall rt :: rt in Routes && rt.element.Guarded? ==>
              exists r: Role :: rt.path == DashboardPath(r) && rt.element.role == RoleName(r)
  {
    assert Routes[4].path == DashboardPath(Admin);
    assert Routes[5].path == DashboardPath(Merchant);
    assert Routes[6].path == DashboardPath(Member);
  }

  /** A signed-in session of role `r` reaches exactly one dashboard: its own. */
  lemma ExactlyOwnDashboard(r: Role, target: Role)
    ensures Visit(DashboardPath(target), true, Some(RoleName(r))) == Show(DashboardPage(target)) <==> target == r
    ensures target != r ==>
              Visit(DashboardPath(target), true, Some(RoleName(r)))
              == RedirectTo(LoginPath(RoleName(target)), DashboardPath(target), true)
  {
    DashboardGuardedByItsRole(target, DashboardPath(target));
    RoleNameInjective(r, target);
  }

  /** On a guarded route, a visit to its path shows the page exactly when the guard
      renders. */
  lemma VisitGuardedRoute(rt: Route, isAuthenticated: bool, userRole: Option<string>)
    requires rt in Routes && rt.element.Guarded?
    ensures Visit(rt.path, isAuthenticated, userRole).Show?
            <==> isAuthenticated && userRole == Some(rt.element.role)
  {
    var i :| 0 <= i < |Routes| && Routes[i] == rt;
    FindMatching(rt.path, i);
  }

  /** Over all paths: a signed-in session of role `r` passes a guard exactly on the
      paths that the pattern `/dashboard/r` matches. */
  lemma AdmittedOnlyOnOwnDashboard(r: Role, path: string)
    ensures (FindRoute(Routes, path).Some? && FindRoute(Routes, path).value.element.Guarded? &&
             Visit(path, true, Some(RoleName(r))).Show?)
            <==> Matches(DashboardPath(r), path)
  {
    var found := FindRoute(Routes, path);
    if Matches(DashboardPath(r), path) {
      DashboardGuardedByItsRole(r, path);
    } else if found.Some? && found.value.element.Guarded? {
      GuardedRoutesAreDashboards();
      var r' :| found.value.path == DashboardPath(r') && found.value.element.role == RoleName(r');
      RoleNameInjective(r, r');
    }
  }

  /** Without a session every dashboard redirects to its own role's login page,
      remembering where the visitor was going. */
  lemma SignedOutDashboardRedirects(target: Role, userRole: Option<string>)
    ensures Visit(DashboardPath(target), false, userRole)
            == RedirectTo(LoginPath(RoleName(target)), DashboardPath(target), true)
  {
    DashboardGuardedByItsRole(target, DashboardPath(target));
  }

  /** Paths no pattern matches show nothing (the table has no catch-all route). */
  lemma UnknownPathNoMatch(path: string, isAuthenticated: bool, userRole: Option<string>)
    requires forall rt :: rt in Routes ==> !Matches(rt.path, path)
    ensures Visit(path, isAuthenticated, userRole) == NoMatch
  {
  }
}
