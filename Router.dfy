/**
 * The part of client-side routing the app's route tables rely on: a path is
 * cut into its non-empty segments, a route pattern is a static path, a
 * static prefix followed by one `:param` segment, or the catch-all `*`, and
 * a table of routes resolves a path to the route it mounts. Static and
 * parameter routes outrank the catch-all, which only answers when nothing
 * else matches.
 */
module Router {
  import opened Common
  import opened Strings

  /** The pages the route tables can mount. */
  datatype PageKind =
    | LandingPage
    | AboutPage
    | LoginPage
    | RegisterPage
    | DashboardPage
    | UrlShortener
    | ShortenUrlPage
    | ErrorPage

  datatype Pattern =
    | Static(segments: seq<string>)   // "/about" is Static(["about"]), "/" is Static([])
    | Param(prefix: seq<string>)      // "/s/:url" is Param(["s"]), "/:url" is Param([])
    | CatchAll                        // "*"

  /** A `<Route>` element: its pattern, the page it mounts, and whether that page is wrapped in `PrivateRoute`. */
  datatype Route = Route(pattern: Pattern, page: PageKind, guarded: bool)

  /** What resolving a path mounts: the page, the captured parameter, if any, and the guard flag. */
  datatype Mounted = Mounted(page: PageKind, param: Option<string>, guarded: bool)

  /**
   * The segments of a URL path (which starts with "/"): the pieces between
   * the slashes after the leading one, with trailing empty pieces dropped.
   * A route pattern compiles to a match that allows any number of slashes
   * at the end only, so "/login/" is "/login" but "//login" and "/s//x"
   * keep their empty segments and match no listed route.
   */
  function PathSegments(path: string): (segs: seq<string>)
    requires |path| >= 1 && path[0] == '/'
    ensures forall i :: 0 <= i < |segs| ==> '/' !in segs[i]
    ensures |segs| > 0 ==> segs[|segs| - 1] != ""
    ensures var n := |Join(segs, "/")|;
      && n < |path| && Join(segs, "/") == path[1..n + 1]
      && forall k :: n + 1 <= k < |path| ==> path[k] == '/'
  {
    var parts := Split(path[1..], '/');
    var segs := DropTrailingEmpty(parts);
    JoinSplit(path[1..], '/');
    JoinTrailingEmpty(parts, |segs|, '/');
    segs
  }

  /** A path whose first segment is empty ("//..." ) keeps that empty segment first. */
  lemma LeadingEmptySegment(path: string)
    requires |path| >= 2 && path[0] == '/' && path[1] == '/'
    ensures PathSegments(path) == [] || PathSegments(path)[0] == ""
  {
    var parts := Split(path[1..], '/');
    assert parts[0] == "";
  }

  predicate Matches(p: Pattern, segs: seq<string>) {
    match p
    case Static(s) => segs == s
    case Param(prefix) => |segs| == |prefix| + 1 && segs[..|prefix|] == prefix && segs[|prefix|] != ""
    case CatchAll => true
  }

  function Mount(r: Route, segs: seq<string>): Mounted
    requires Matches(r.pattern, segs)
  {
    Mounted(r.page, if r.pattern.Param? then Some(segs[|segs| - 1]) else None, r.guarded)
  }

  /**
   * Resolves `segs` against `table`: a static or parameter route that
   * matches wins; only when none matches does a catch-all answer; with
   * neither, nothing is mounted. React Router ranks matching routes by
   * specificity rather than by position; the first match in table order
   * gives the same route here because in the app's tables no two routes
   * other than the catch-all match the same path (a static path such as
   * "/login" never sits beside "/:url" in one table).
   */
  function Resolve(table: seq<Route>, segs: seq<string>): (r: Option<Mounted>)
    ensures forall i ::
              && 0 <= i < |table| && !table[i].pattern.CatchAll? && Matches(table[i].pattern, segs)
              && (forall j :: 0 <= j < |table| && j != i && !table[j].pattern.CatchAll? ==> !Matches(table[j].pattern, segs))
              ==> r == Some(Mount(table[i], segs))
    ensures (forall i :: 0 <= i < |table| && !table[i].pattern.CatchAll? ==> !Matches(table[i].pattern, segs)) ==>
      r == (if exists i :: 0 <= i < |table| && table[i].pattern.CatchAll?
            then Some(Mounted(CatchAllPage(table), None, CatchAllGuarded(table)))
            else None)
  {
    match FindFirst(table, (rt: Route) => !rt.pattern.CatchAll? && Matches(rt.pattern, segs))
    case Some(i) => Some(Mount(table[i], segs))
    case None =>
      match FindFirst(table, (rt: Route) => rt.pattern.CatchAll?)
      case Some(k) => Some(Mounted(table[k].page, None, table[k].guarded))
      case None => None
  }

  /** The page of the first catch-all route of a table (ErrorPage when there is none). */
  function CatchAllPage(table: seq<Route>): PageKind {
    match FindFirst(table, (rt: Route) => rt.pattern.CatchAll?)
    case Some(k) => table[k].page
    case None => ErrorPage
  }

  function CatchAllGuarded(table: seq<Route>): bool {
    match FindFirst(table, (rt: Route) => rt.pattern.CatchAll?)
    case Some(k) => table[k].guarded
    case None => false
  }
}
