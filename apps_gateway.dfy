/** The gateway application's `RouterManager`: it validates the packages/rpc route table, mounts
    one proxy per route at the route's prefix and ends with the global error stage. Express hands
    a mounted proxy only the part of the URL after the mount prefix; the proxy forwards it to the
    target and prefix of the route named like its own. */
module AppsGateway {
  import opened Base
  import opened OrderedMaps
  import opened RoutesConfig
  import opened GatewayRoutes

  /** `selectServiceInstance(serviceName)`: target and prefix of the first route with that name;
      with no such route, `'' + undefined`. */
  function SelectServiceInstance(routes: seq<RouteConfig>, serviceName: string): (url: string)
    ensures FindRoute(routes, serviceName).Some? ==>
              url == FindRoute(routes, serviceName).value.target + FindRoute(routes, serviceName).value.prefix
    ensures FindRoute(routes, serviceName).None? ==> url == "undefined"
  {
    var route := FindRoute(routes, serviceName);
    if route.Some? then route.value.target + route.value.prefix else "undefined"
  }

  /** The proxy's `router` option: the selected instance with its first `\"` removed. */
  function RouterTarget(routes: seq<RouteConfig>, serviceName: string): string {
    ReplaceFirst(SelectServiceInstance(routes, serviceName), "\\\"", "")
  }

  /** Where a proxy sends a request whose URL after the mount prefix is `path`: the router's target
      followed by `path` with the `^prefix` rewrite applied. */
  function Upstream(routes: seq<RouteConfig>, proxy: ProxyMiddleware, path: string): string {
    RouterTarget(routes, proxy.route.name) + Rewrite(proxy.route.prefix, path)
  }

  /** In a table with distinct names, a request for `prefix + rest` reaches the proxy as `rest`;
      when `rest` does not itself start with the prefix the rewrite leaves it alone and the router
      puts the prefix back, so the upstream sees the whole original path. */
  lemma UpstreamRestoresPrefix(routes: seq<RouteConfig>, i: nat, rest: string)
    requires i < |routes|
    requires forall a, b :: 0 <= a < b < |routes| ==> routes[a].name != routes[b].name
    requires !Contains(routes[i].target + routes[i].prefix, "\\\"")
    requires !StartsWith(rest, routes[i].prefix)
    ensures Upstream(routes, ProxyMiddleware(routes[i]), rest) == routes[i].target + (routes[i].prefix + rest)
  {
    FindOwnRoute(routes, i);
  }

  /** A request for `prefix + prefix + rest` reaches the proxy as `prefix + rest`: the rewrite takes
      that second copy off as well, so the upstream sees the original path with one copy of a
      non-empty prefix missing. */
  lemma UpstreamDropsRepeatedPrefix(routes: seq<RouteConfig>, i: nat, rest: string)
    requires i < |routes|
    requires forall a, b :: 0 <= a < b < |routes| ==> routes[a].name != routes[b].name
    requires !Contains(routes[i].target + routes[i].prefix, "\\\"")
    ensures Upstream(routes, ProxyMiddleware(routes[i]), routes[i].prefix + rest) == routes[i].target + (routes[i].prefix + rest)
    ensures |routes[i].prefix| > 0 ==>
              Upstream(routes, ProxyMiddleware(routes[i]), routes[i].prefix + rest) != routes[i].target + (routes[i].prefix + (routes[i].prefix + rest))
  {
    FindOwnRoute(routes, i);
    var path := routes[i].prefix + rest;
    assert StartsWith(path, routes[i].prefix) by {
      assert path[..|routes[i].prefix|] == routes[i].prefix;
    }
    assert Rewrite(routes[i].prefix, path) == rest;
  }

  /** The packages/rpc table passes validation whatever the environment holds. */
  lemma RpcRoutesValidate(env: string -> Option<string>)
    ensures WellFormed(RpcRoutes(env))
  {
    var routes := RpcRoutes(env);
    assert forall i :: 0 <= i < |routes| ==> Complete(routes[i]);
    // The five prefixes have five different lengths.
    var lengths := [14, 10, 9, 13, 11];
    assert forall i :: 0 <= i < |routes| ==> |routes[i].prefix| == lengths[i];
    assert forall a, b :: 0 <= a < b < |routes| ==> lengths[a] != lengths[b];
  }

  class RouterManager {
    const routes: seq<RouteConfig>
    /** `proxyMiddlewares`, by prefix, in registration order. */
    var proxyMiddlewares: OMap<string, ProxyMiddleware>
    /** The layers mounted on the express application, in order. */
    var layers: seq<Layer>

    constructor Empty(routes: seq<RouteConfig>)
      ensures this.routes == routes && proxyMiddlewares == OrderedMaps.Empty() && layers == []
    {
      this.routes := routes;
      proxyMiddlewares := OrderedMaps.Empty();
      layers := [];
    }

    /** `new RouterManager(app)`: validation first, so an invalid table mounts nothing and the
        constructor throws the first offence (`ValidatesIff` and `FirstOffenceReported` say when
        and which); then one proxy per route, in table order, filed under its prefix
        (`RegisteredTable`), and the error stage last. */
    static method Create(routes: seq<RouteConfig>) returns (r: Result<RouterManager, string>)
      ensures r.Err? <==> Check(routes, 0, {}).Some?
      ensures r.Err? ==> Check(routes, 0, {}) == Some(r.error)
      ensures r.Ok? ==> && fresh(r.value) && r.value.routes == routes
                        && r.value.proxyMiddlewares == Registered(OrderedMaps.Empty(), routes)
                        && r.value.layers == ProxyLayers(routes) + [ErrorLayer]
    {
      var err := ValidateRoutes(routes);
      if err.Some? {
        return Err(err.value);
      }
      var m := new RouterManager.Empty(routes);
      m.SetupRoutes();
      return Ok(m);
    }

    /** `setupRoutes()`: `registerRoute` for each route in order, then the error stage. */
    method SetupRoutes()
      requires proxyMiddlewares.Valid()
      modifies this
      ensures proxyMiddlewares == Registered(old(proxyMiddlewares), routes)
      ensures layers == old(layers) + ProxyLayers(routes) + [ErrorLayer]
    {
      var i := 0;
      while i < |routes|
        invariant 0 <= i <= |routes|
        invariant proxyMiddlewares.Valid()
        invariant Registered(proxyMiddlewares, routes[i..]) == Registered(old(proxyMiddlewares), routes)
        invariant layers + ProxyLayers(routes[i..]) == old(layers) + ProxyLayers(routes)
      {
        assert routes[i..][0] == routes[i] && routes[i..][1..] == routes[i + 1..];
        LayersStep(layers, routes[i..]);
        var proxy := ProxyMiddleware(routes[i]);
        proxyMiddlewares := proxyMiddlewares.Set(routes[i].prefix, proxy);
        layers := layers + [ProxyLayer(routes[i].prefix, proxy)];
        i := i + 1;
      }
      assert routes[i..] == [];
      layers := layers + [ErrorLayer];
    }
  }
}
