/**
 * The static configuration of the front end: the subdomain registry and the
 * route table of the main shell, the local-storage keys, and the API
 * endpoint paths.
 */
module Constants {
  import opened Common
  import opened Strings
  import opened Helper
  import opened Router

  /** The application shells a registry entry can mount; the app defines one. */
  datatype Shell = MainApp

  /** `subDomainList`: one entry, for the empty subdomain, marked main. */
  const SubDomainList: seq<AppEntry<Shell>> := [AppEntry("", MainApp, true)]

  /** The routes of the `MainApp` shell, none of them guarded and no catch-all. */
  const MainAppRoutes: seq<Route> := [
    Route(Static([]), LandingPage, false),
    Route(Static(["about"]), AboutPage, false),
    Route(Static(["login"]), LoginPage, false),
    Route(Static(["dashboard"]), DashboardPage, false),
    Route(Static(["shorten"]), UrlShortener, false)
  ]

  /** The registry has exactly one entry, and it is the main one, for the empty subdomain. */
  lemma RegistryHasOnlyMain()
    ensures |SubDomainList| == 1
    ensures SubDomainList[0].main && SubDomainList[0].subdomain == ""
    ensures FindFirst(SubDomainList, (e: AppEntry<Shell>) => e.main) == Some(0)
  {
  }

  /** Every host name resolves to the main shell: the registry's only entry is the main one. */
  lemma EveryHostGetsMainApp(hostname: string)
    ensures GetApps(hostname, SubDomainList) == Some(MainApp)
  {
    GetAppsFallsBackToMain(hostname, SubDomainList, 0);
  }

  /**
   * The main shell routes exactly "/", "/about", "/login", "/dashboard" and
   * "/shorten", mounts "/dashboard" without a guard, and mounts nothing on
   * any other path.
   */
  lemma MainAppRouteTable(segs: seq<string>)
    ensures segs == [] ==> Resolve(MainAppRoutes, segs) == Some(Mounted(LandingPage, None, false))
    ensures segs == ["about"] ==> Resolve(MainAppRoutes, segs) == Some(Mounted(AboutPage, None, false))
    ensures segs == ["login"] ==> Resolve(MainAppRoutes, segs) == Some(Mounted(LoginPage, None, false))
    ensures segs == ["dashboard"] ==> Resolve(MainAppRoutes, segs) == Some(Mounted(DashboardPage, None, false))
    ensures segs == ["shorten"] ==> Resolve(MainAppRoutes, segs) == Some(Mounted(UrlShortener, None, false))
    ensures Resolve(MainAppRoutes, segs).None? <==> segs !in {[], ["about"], ["login"], ["dashboard"], ["shorten"]}
  {
    var table := MainAppRoutes;
    forall i | 0 <= i < |table| ensures !table[i].pattern.CatchAll? && table[i].pattern.Static? {
    }
    if segs in {[], ["about"], ["login"], ["dashboard"], ["shorten"]} {
      var i := if segs == [] then 0 else if segs == ["about"] then 1 else if segs == ["login"] then 2
        else if segs == ["dashboard"] then 3 else 4;
      assert Matches(table[i].pattern, segs);
    } else {
      assert forall i :: 0 <= i < |table| ==> !Matches(table[i].pattern, segs);
    }
  }

  /** `STORAGE_KEYS`: where the session token and the user are persisted. */
  const TokenKey: string := "token"
  const UserKey: string := "user"

  /** `API_ENDPOINTS`, by name. */
  const ApiEndpoints: map<string, string> := map[
    "LOGIN" := "/api/auth/login",
    "REGISTER" := "/api/auth/register",
    "SHORTEN_URL" := "/api/urls/shorten",
    "GET_USER_URLS" := "/api/urls/user",
    "DELETE_URL" := "/api/urls",
    "GET_URL_STATS" := "/api/urls/stats"
  ]

  /** Every API endpoint path lies under "/api/". */
  lemma EndpointsUnderApi()
    ensures forall name :: name in ApiEndpoints ==> |ApiEndpoints[name]| >= 5 && ApiEndpoints[name][..5] == "/api/"
  {
  }
}
