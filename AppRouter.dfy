/**
 * The route tables of the two routers: `AppRouter`, which the app mounts,
 * and `SubDomainRouter`, which only opens short links. Composed with the
 * guard, they decide what a visitor of a path sees.
 */
module AppRouter {
  import opened Common
  import opened Router
  import opened PrivateRoute

  /** The routes of `AppRouter`, in the order they are declared. */
  const AppRoutes: seq<Route> := [
    Route(Static([]), LandingPage, false),
    Route(Static(["login"]), LoginPage, false),
    Route(Static(["register"]), RegisterPage, false),
    Route(Static(["shorten"]), UrlShortener, false),
    Route(Param(["s"]), ShortenUrlPage, false),
    Route(Static(["about"]), AboutPage, false),
    Route(Static(["dashboard"]), DashboardPage, true),
    Route(CatchAll, ErrorPage, false)
  ]

  /** The single route of `SubDomainRouter`: "/:url". */
  const SubDomainRoutes: seq<Route> := [Route(Param([]), ShortenUrlPage, false)]

  /** The paths `AppRouter` lists by name. */
  predicate Listed(segs: seq<string>) {
    segs in {[], ["login"], ["register"], ["shorten"], ["about"], ["dashboard"]}
    || (|segs| == 2 && segs[0] == "s" && segs[1] != "")
  }

  /** The position in AppRoutes of the route that serves a listed path. */
  function ListedIndex(segs: seq<string>): (i: nat)
    requires Listed(segs)
    ensures i < |AppRoutes| - 1 && Matches(AppRoutes[i].pattern, segs)
  {
    if segs == [] then 0 else if segs == ["login"] then 1 else if segs == ["register"] then 2
    else if segs == ["shorten"] then 3 else if segs == ["about"] then 5 else if segs == ["dashboard"] then 6
    else assert segs[..1] == ["s"]; 4
  }

  lemma ListedResolves(segs: seq<string>)
    requires Listed(segs)
    ensures Resolve(AppRoutes, segs) == Some(Mount(AppRoutes[ListedIndex(segs)], segs))
  {
    var t := AppRoutes;
    var i := ListedIndex(segs);
    forall j | 0 <= j < |t| && j != i && !t[j].pattern.CatchAll? ensures !Matches(t[j].pattern, segs) {
      if j == 4 {
        assert segs[..0] == [];
      }
    }
  }

  lemma UnlistedResolves(segs: seq<string>)
    requires !Listed(segs)
    ensures Resolve(AppRoutes, segs) == Some(Mounted(ErrorPage, None, false))
  {
    var t := AppRoutes;
    forall j | 0 <= j < |t| && !t[j].pattern.CatchAll? ensures !Matches(t[j].pattern, segs) {
      if j == 4 && |segs| == 2 && segs[..1] == ["s"] {
        assert segs[0] == "s";
      }
    }
    assert FindFirst(t, (rt: Route) => rt.pattern.CatchAll?) == Some(|t| - 1);
  }

  /**
   * A path that starts with a doubled slash, such as "//login", lists
   * nothing and falls to the error page, unless it is slashes only (the
   * landing page).
   */
  lemma DoubledSlashFallsThrough(path: string)
    requires |path| >= 2 && path[0] == '/' && path[1] == '/' && PathSegments(path) != []
    ensures Resolve(AppRoutes, PathSegments(path)) == Some(Mounted(ErrorPage, None, false))
  {
    LeadingEmptySegment(path);
    UnlistedResolves(PathSegments(path));
  }

  /**
   * `AppRouter` mounts something on every path; "/dashboard" is the only
   * guarded route; "/s/<x>" opens the short link x; and every path it does
   * not list falls to the error page.
   */
  lemma AppRouteTable(segs: seq<string>)
    ensures Resolve(AppRoutes, segs).Some?
    ensures Resolve(AppRoutes, segs).value.guarded <==> segs == ["dashboard"]
    ensures |segs| == 2 && segs[0] == "s" && segs[1] != "" ==>
      Resolve(AppRoutes, segs) == Some(Mounted(ShortenUrlPage, Some(segs[1]), false))
    ensures !Listed(segs) ==> Resolve(AppRoutes, segs) == Some(Mounted(ErrorPage, None, false))
  {
    if Listed(segs) {
      ListedResolves(segs);
    } else {
      UnlistedResolves(segs);
    }
  }

  /** `SubDomainRouter` opens every one-segment path as a short link and mounts nothing anywhere else. */
  lemma SubDomainRouteTable(segs: seq<string>)
    ensures |segs| == 1 && segs[0] != "" ==> Resolve(SubDomainRoutes, segs) == Some(Mounted(ShortenUrlPage, Some(segs[0]), false))
    ensures !(|segs| == 1 && segs[0] != "") ==> Resolve(SubDomainRoutes, segs).None?
  {
  }

  /** What a visitor of a path sees: a page (with its parameter), the guard's placeholder, or a redirect. */
  datatype Screen =
    | Shows(page: PageKind, param: Option<string>)
    | Loading
    | RedirectTo(path: string)

  /** What `AppRouter` mounts on a path: "/dashboard" is the one guarded route. */
  lemma AppMounted(segs: seq<string>)
    ensures Resolve(AppRoutes, segs).Some?
    ensures Resolve(AppRoutes, segs).value.guarded <==> segs == ["dashboard"]
    ensures Resolve(AppRoutes, segs).value.page == DashboardPage <==> segs == ["dashboard"]
    ensures segs == ["dashboard"] ==> Resolve(AppRoutes, segs) == Some(Mounted(DashboardPage, None, true))
  {
    if Listed(segs) {
      ListedResolves(segs);
      var i := ListedIndex(segs);
      assert i == 6 <==> segs == ["dashboard"];
      assert (AppRoutes[i].guarded <==> i == 6) && (AppRoutes[i].page == DashboardPage <==> i == 6);
    } else {
      UnlistedResolves(segs);
    }
  }

  /** `AppRouter` mounting the path `segs` for the session fields `loading` and `token`. */
  function AppScreen(segs: seq<string>, loading: bool, token: Option<string>): (s: Screen)
    ensures s == Shows(DashboardPage, None) <==> segs == ["dashboard"] && !loading && Truthy(token)
    ensures s == RedirectTo(LoginPath) <==> segs == ["dashboard"] && !loading && !Truthy(token)
    ensures s == Loading <==> segs == ["dashboard"] && loading
    ensures segs != ["dashboard"] ==> s == Shows(Resolve(AppRoutes, segs).value.page, Resolve(AppRoutes, segs).value.param)
  {
    AppMounted(segs);
    var m := Resolve(AppRoutes, segs).value;
    if m.guarded then
      match Guard(loading, token)
      case Placeholder => Loading
      case Redirect(to, _) => RedirectTo(to)
      case Children => Shows(m.page, m.param)
    else Shows(m.page, m.param)
  }
}
