/** The gateway package's `RouterManager`: the same validation and one proxy per route, plus a
    table from logical service names to URLs. Its proxies all forward to one fixed address,
    whatever the route. */
module PackagesGateway {
  import opened Base
  import opened OrderedMaps
  import opened RoutesConfig
  import opened GatewayRoutes

  /** The six logical service names. */
  const SERVICE_NAMES: set<string> := {"analytics", "auth", "booking", "business", "payments", "report"}

  /** `initializeServiceMap()`: each logical service's URL from its environment variable, or a
      localhost default when the variable is unset or empty. */
  function InitializeServiceMap(env: string -> Option<string>): (m: map<string, string>)
    ensures m.Keys == SERVICE_NAMES
    ensures forall name :: name in m ==> m[name] != ""
    ensures m["analytics"] == OrElse(env("ANALYTICS_SERVICE_URL"), "http://localhost:3001")
    ensures m["auth"] == OrElse(env("AUTH_SERVICE_URL"), "http://localhost:3002")
    ensures m["booking"] == OrElse(env("BOOKING_SERVICE_URL"), "http://localhost:3003")
    ensures m["business"] == OrElse(env("BUSINESS_SERVICE_URL"), "http://localhost:3004")
    ensures m["payments"] == OrElse(env("PAYMENTS_SERVICE_URL"), "http://localhost:3005")
    ensures m["report"] == OrElse(env("REPORT_SERVICE_URL"), "http://localhost:3006")
  {
    map name | name in SERVICE_NAMES :: ServiceUrl(env, name)
  }

  /** The entry of `initializeServiceMap()` for one logical service: its environment variable,
      or a localhost default when the variable is unset or empty. */
  function ServiceUrl(env: string -> Option<string>, name: string): string {
    if name == "analytics" then OrElse(env("ANALYTICS_SERVICE_URL"), "http://localhost:3001")
    else if name == "auth" then OrElse(env("AUTH_SERVICE_URL"), "http://localhost:3002")
    else if name == "booking" then OrElse(env("BOOKING_SERVICE_URL"), "http://localhost:3003")
    else if name == "business" then OrElse(env("BUSINESS_SERVICE_URL"), "http://localhost:3004")
    else if name == "payments" then OrElse(env("PAYMENTS_SERVICE_URL"), "http://localhost:3005")
    else OrElse(env("REPORT_SERVICE_URL"), "http://localhost:3006")
  }

  /** `getTargetUrl(serviceName)`: the configured URL, or the error thrown when there is none. */
  function GetTargetUrl(serviceMap: map<string, string>, serviceName: string): (r: Result<string, string>)
    ensures r.Ok? <==> serviceName in serviceMap && serviceMap[serviceName] != ""
    ensures r.Ok? ==> r.value == serviceMap[serviceName]
    ensures r.Err? ==> r.error == "No URL configured for service: " + serviceName
  {
    if serviceName in serviceMap && serviceMap[serviceName] != "" then Ok(serviceMap[serviceName])
    else Err("No URL configured for service: " + serviceName)
  }

  /** `selectServiceInstance(serviceName)`: a fixed address, whatever the name. */
  function SelectServiceInstance(serviceName: string): string {
    "http://localhost:3001/api/analytics"
  }

  /** Where a proxy sends a request whose URL after the mount prefix is `path`: the fixed instance
      followed by `path` with the `^prefix` rewrite applied. */
  function Upstream(proxy: ProxyMiddleware, path: string): string {
    SelectServiceInstance(proxy.route.target) + Rewrite(proxy.route.prefix, path)
  }

  /** Every route's requests reach the analytics service's address: a request for `prefix + rest`
      reaches the proxy as `rest`, and when `rest` does not itself start with the prefix it is
      appended to `/api/analytics` unchanged. */
  lemma EveryRouteReachesAnalytics(route: RouteConfig, rest: string)
    requires !StartsWith(rest, route.prefix)
    ensures Upstream(ProxyMiddleware(route), rest) == "http://localhost:3001/api/analytics" + rest
  {
  }

  /** A request for `prefix + prefix + rest` reaches the proxy as `prefix + rest`, and the rewrite
      takes that copy off too: the analytics service sees `rest` alone. */
  lemma AnalyticsDropsRepeatedPrefix(route: RouteConfig, rest: string)
    ensures Upstream(ProxyMiddleware(route), route.prefix + rest) == "http://localhost:3001/api/analytics" + rest
  {
    var path := route.prefix + rest;
    assert path[..|route.prefix|] == route.prefix;
    assert path[|route.prefix|..] == rest;
  }

  /** The table of logical routes validates, and every target it names has a URL, whatever the
      environment holds. */
  lemma LogicalRoutesConfigured(env: string -> Option<string>)
    ensures WellFormed(LOGICAL_ROUTES)
    ensures forall i :: 0 <= i < |LOGICAL_ROUTES| ==> GetTargetUrl(InitializeServiceMap(env), LOGICAL_ROUTES[i].target).Ok?
  {
    var routes := LOGICAL_ROUTES;
    assert forall i :: 0 <= i < |routes| ==> routes[i].target in SERVICE_NAMES;
    assert routes[0].prefix == "/api/analytics" && routes[1].prefix == "/api/auth/" && routes[2].prefix == "/api/booking/"
           && routes[3].prefix == "/api/business/" && routes[4].prefix == "/api/payments" && routes[5].prefix == "/api/report";
  }

  /** One entry of `getRouteStats().routes`: the route, whether its target has a URL, and the URL. */
  datatype RouteStat = RouteStat(name: string, prefix: string, target: string, configured: bool, targetUrl: string)

  /** `getRouteStats()`. */
  datatype RouteStats = RouteStats(totalRoutes: nat, routes: seq<RouteStat>)

  /** The stat of one route. */
  function StatOf(serviceMap: map<string, string>, route: RouteConfig): RouteStat {
    var url := GetTargetUrl(serviceMap, route.target);
    RouteStat(route.name, route.prefix, route.target, url.Ok?, if url.Ok? then url.value else "Not configured")
  }

  /** The stats of a table, in table order. */
  function StatsOf(serviceMap: map<string, string>, routes: seq<RouteConfig>): (r: seq<RouteStat>)
    ensures |r| == |routes|
    ensures forall i :: 0 <= i < |routes| ==> r[i] == StatOf(serviceMap, routes[i])
  {
    if |routes| == 0 then [] else [StatOf(serviceMap, routes[0])] + StatsOf(serviceMap, routes[1..])
  }

  class RouterManager {
    const routes: seq<RouteConfig>
    const serviceMap: map<string, string>
    /** `proxyMiddlewares`, by prefix, in registration order. */
    var proxyMiddlewares: OMap<string, ProxyMiddleware>
    /** The proxies mounted on the express application, in order. */
    var layers: seq<Layer>

    constructor Empty(routes: seq<RouteConfig>, serviceMap: map<string, string>)
      ensures this.routes == routes && this.serviceMap == serviceMap
      ensures proxyMiddlewares == OrderedMaps.Empty() && layers == []
    {
      this.routes := routes;
      this.serviceMap := serviceMap;
      proxyMiddlewares := OrderedMaps.Empty();
      layers := [];
    }

    /** `new RouterManager(httpTransport)`: the service map, then validation, which throws the
        first offence (`ValidatesIff` and `FirstOffenceReported` say when and which; a target
        without a URL is only reported), then one proxy per route, in table order, filed under
        its prefix (`RegisteredTable`). */
    static method Create(routes: seq<RouteConfig>, env: string -> Option<string>) returns (r: Result<RouterManager, string>)
      ensures r.Err? <==> Check(routes, 0, {}).Some?
      ensures r.Err? ==> Check(routes, 0, {}) == Some(r.error)
      ensures r.Ok? ==> && fresh(r.value) && r.value.routes == routes
                        && r.value.serviceMap == InitializeServiceMap(env)
                        && r.value.proxyMiddlewares == Registered(OrderedMaps.Empty(), routes)
                        && r.value.layers == ProxyLayers(routes)
    {
      var serviceMap := InitializeServiceMap(env);
      var err := ValidateRoutes(routes);
      if err.Some? {
        return Err(err.value);
      }
      var m := new RouterManager.Empty(routes, serviceMap);
      m.SetupRoutes();
      return Ok(m);
    }

    /** `setupRoutes()`: `registerRoute` for each route in order. */
    method SetupRoutes()
      requires proxyMiddlewares.Valid()
      modifies this
      ensures proxyMiddlewares == Registered(old(proxyMiddlewares), routes)
      ensures layers == old(layers) + ProxyLayers(routes)
    {
      var i := 0;
      while i < |routes|
        invariant 0 <= i <= |routes|
        invariant proxyMiddlewares.Valid()
        invariant Registered(proxyMiddlewares, routes[i..]) == Registered(old(proxyMiddlewares), routes)
        invariant layers + ProxyLayers(routes[i..]) == old(layers) + ProxyLayers(routes)
      {
        assert routes[i..][0] == routes[i] && routes[i..][1..] == routes[i + 1..];
        LayersStep(layers, routes[i..]);
        var proxy := ProxyMiddleware(routes[i]);
        proxyMiddlewares := proxyMiddlewares.Set(routes[i].prefix, proxy);
        layers := layers + [ProxyLayer(routes[i].prefix, proxy)];
        i := i + 1;
      }
      assert routes[i..] == [];
    }

    /** `getRoutes()`: a new array holding the table, so writes to it leave the manager's table as
        it was. */
    method GetRoutes() returns (copy: array<RouteConfig>)
      ensures fresh(copy) && copy[..] == routes
    {
      copy := new RouteConfig[|routes|](i requires 0 <= i < |routes| => routes[i]);
    }

    /** `getRouteStats()`: the number of routes and, per route in order, whether its target has a
        URL in the service map and that URL, or 'Not configured'. */
    function GetRouteStats(): (r: RouteStats)
      ensures r.totalRoutes == |routes| == |r.routes|
      ensures forall i :: 0 <= i < |routes| ==>
                && r.routes[i].name == routes[i].name && r.routes[i].prefix == routes[i].prefix
                && r.routes[i].target == routes[i].target
                && (r.routes[i].configured <==> routes[i].target in serviceMap && serviceMap[routes[i].target] != "")
                && r.routes[i].targetUrl == (if r.routes[i].configured then serviceMap[routes[i].target] else "Not configured")
    {
      RouteStats(|routes|, StatsOf(serviceMap, routes))
    }
  }
}
