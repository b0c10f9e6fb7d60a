/**
 * Route aggregation: the route table is the two core routes, then every
 * registered plugin's routes in plugin order (each plugin's own order kept),
 * each turned into a guarded `PrivateRoute` when it lists permissions and a
 * plain `Route` otherwise, then a path-less not-found route. Nothing is
 * deduplicated.
 */
module Routes {
  import opened PluginTypes

  /** One entry of the route table. */
  datatype Entry =
    | PrivateRoute(path: Option<string>, component: string, exact: Option<bool>, requiredPermissions: seq<string>)
    | Route(path: Option<string>, component: string, exact: Option<bool>)

  const HomeRoute: Entry := Route(Some("/"), "Home", Some(true))
  const LoginRoute: Entry := Route(Some("/login"), "Login", None)
  const NotFoundRoute: Entry := Route(None, "NotFound", None)

  /** `plugin.routes || []` */
  function RoutesOf(p: Descriptor): seq<RouteSpec>
  {
    match p.routes
    case None => []
    case Some(rs) => rs
  }

  /** `plugins.flatMap(plugin => plugin.routes || [])` */
  function PluginRoutes(plugins: seq<Descriptor>): (rs: seq<RouteSpec>)
    ensures |rs| == TotalRoutes(plugins)
    ensures forall r :: r in rs ==> exists p :: p in plugins && r in RoutesOf(p)
  {
    if plugins == [] then [] else RoutesOf(plugins[0]) + PluginRoutes(plugins[1..])
  }

  /** The number of routes the plugins declare, summed plugin by plugin. */
  function TotalRoutes(plugins: seq<Descriptor>): nat
  {
    if plugins == [] then 0 else |RoutesOf(plugins[0])| + TotalRoutes(plugins[1..])
  }

  /** `permissions && permissions.length > 0` */
  predicate IsGuarded(r: RouteSpec)
  {
    r.permissions.Some? && |r.permissions.value| > 0
  }

  /**
   * The element rendered for one plugin route. A route with a non-empty
   * permission list becomes a guarded entry that requires exactly that list;
   * one with a missing or empty list becomes a plain entry. Path, component
   * and `exact` pass through unchanged either way.
   */
  function ToEntry(r: RouteSpec): (e: Entry)
    ensures e.PrivateRoute? <==> r.permissions.Some? && r.permissions.value != []
    ensures e.PrivateRoute? ==> e.requiredPermissions == r.permissions.value
    ensures e.path == Some(r.path) && e.component == r.component && e.exact == r.exact
  {
    if IsGuarded(r) then PrivateRoute(Some(r.path), r.component, r.exact, r.permissions.value)
    else Route(Some(r.path), r.component, r.exact)
  }

  /** The `<Switch>` children of `Routes()`, in order. */
  function RouteTable(plugins: seq<Descriptor>): (t: seq<Entry>)
    ensures |t| == 3 + TotalRoutes(plugins)
    ensures t[0] == HomeRoute && t[1] == LoginRoute && t[|t| - 1] == NotFoundRoute
    ensures forall k :: 0 <= k < |t| && t[k].PrivateRoute? ==>
              exists p :: p in plugins && exists r :: r in RoutesOf(p) && IsGuarded(r) && t[k] == ToEntry(r)
  {
    var rs := PluginRoutes(plugins);
    assert forall k :: 0 <= k < |rs| && ToEntry(rs[k]).PrivateRoute? ==>
             exists p :: p in plugins && exists r :: r in RoutesOf(p) && IsGuarded(r) && ToEntry(rs[k]) == ToEntry(r) by {
      forall k | 0 <= k < |rs| && ToEntry(rs[k]).PrivateRoute?
        ensures exists p :: p in plugins && exists r :: r in RoutesOf(p) && IsGuarded(r) && ToEntry(rs[k]) == ToEntry(r)
      {
        assert rs[k] in rs;
        var p :| p in plugins && rs[k] in RoutesOf(p);
      }
    }
    [HomeRoute, LoginRoute] + seq(|rs|, k requires 0 <= k < |rs| => ToEntry(rs[k])) + [NotFoundRoute]
  }

  lemma {:induction false} PluginRoutesAppend(a: seq<Descriptor>, b: seq<Descriptor>)
    ensures PluginRoutes(a + b) == PluginRoutes(a) + PluginRoutes(b)
  {
    if a == [] {
      assert a + b == b;
    } else {
      assert (a + b)[0] == a[0];
      assert (a + b)[1..] == a[1..] + b;
      PluginRoutesAppend(a[1..], b);
    }
  }

  /**
   * Flattening keeps plugin order and each plugin's internal order: route `j`
   * of plugin `i` sits after all routes of the plugins before `i`. A plugin
   * without routes contributes nothing.
   */
  lemma PluginRoutesPosition(plugins: seq<Descriptor>, i: nat, j: nat)
    requires i < |plugins| && j < |RoutesOf(plugins[i])|
    ensures TotalRoutes(plugins[..i]) + j < |PluginRoutes(plugins)|
    ensures PluginRoutes(plugins)[TotalRoutes(plugins[..i]) + j] == RoutesOf(plugins[i])[j]
  {
    var before, rest := plugins[..i], plugins[i..];
    assert plugins == before + rest;
    assert rest[0] == plugins[i];
    PluginRoutesAppend(before, rest);
  }

  lemma {:induction false} NoRoutesContributesNothing(plugins: seq<Descriptor>, p: Descriptor)
    requires p.routes.None? || p.routes == Some([])
    ensures PluginRoutes(plugins + [p]) == PluginRoutes(plugins)
  {
    PluginRoutesAppend(plugins, [p]);
    assert PluginRoutes([p]) == RoutesOf(p) + PluginRoutes([]);
  }

  /**
   * The table starts with `/` (exact) and `/login`, ends with the path-less
   * not-found route, and in between holds one entry per plugin route, in
   * order, so its length is 2 + (sum of the plugins' route counts) + 1 even
   * when paths repeat. Each plugin route's entry is guarded exactly when the
   * route lists permissions.
   */
  lemma RouteTableShape(plugins: seq<Descriptor>)
    ensures |RouteTable(plugins)| == 2 + TotalRoutes(plugins) + 1
    ensures RouteTable(plugins)[0] == Route(Some("/"), "Home", Some(true))
    ensures RouteTable(plugins)[1] == Route(Some("/login"), "Login", None)
    ensures RouteTable(plugins)[|RouteTable(plugins)| - 1] == Route(None, "NotFound", None)
    ensures forall k :: 0 <= k < TotalRoutes(plugins) ==>
              RouteTable(plugins)[2 + k] == ToEntry(PluginRoutes(plugins)[k])
  {
  }

  /**
   * Core routes are never guarded: the only guarded entries of the table are
   * those made from plugin routes with permissions.
   */
  lemma GuardedEntriesComeFromPlugins(plugins: seq<Descriptor>, k: nat)
    requires k < |RouteTable(plugins)| && RouteTable(plugins)[k].PrivateRoute?
    ensures 2 <= k < 2 + |PluginRoutes(plugins)|
    ensures IsGuarded(PluginRoutes(plugins)[k - 2])
    ensures RouteTable(plugins)[k].requiredPermissions == PluginRoutes(plugins)[k - 2].permissions.value
  {
  }

  /** The analytics plugin's two routes, as declared by that plugin. */
  const AnalyticsRoutes: seq<RouteSpec> := [
    RouteSpec("/analytics", "AnalyticsDashboard", Some(true), Some(["analytics.view"])),
    RouteSpec("/settings/analytics", "AnalyticsSettings", Some(true), Some(["analytics.settings"]))
  ]

  /** With only the analytics plugin registered, both of its routes are guarded. */
  lemma AnalyticsTable(analytics: Descriptor)
    requires analytics.routes == Some(AnalyticsRoutes)
    ensures RouteTable([analytics]) == [
      HomeRoute,
      LoginRoute,
      PrivateRoute(Some("/analytics"), "AnalyticsDashboard", Some(true), ["analytics.view"]),
      PrivateRoute(Some("/settings/analytics"), "AnalyticsSettings", Some(true), ["analytics.settings"]),
      NotFoundRoute]
  {
    assert PluginRoutes([analytics]) == AnalyticsRoutes + PluginRoutes([]);
  }

  /** Two plugins declaring the same path both keep their entry, in plugin order. */
  lemma DuplicatePathsKept(a: Descriptor, b: Descriptor, r: RouteSpec, s: RouteSpec)
    requires a.routes == Some([r]) && b.routes == Some([s]) && r.path == s.path
    ensures RouteTable([a, b]) == [HomeRoute, LoginRoute, ToEntry(r), ToEntry(s), NotFoundRoute]
  {
    assert [a, b][1..] == [b];
    assert PluginRoutes([b]) == [s] + PluginRoutes([]);
    assert PluginRoutes([a, b]) == [r, s];
  }
}
