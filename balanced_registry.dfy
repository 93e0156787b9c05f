/** The client `ServiceRegistry` of rpc/: each RPC service definition gets a proxy bound to
    the target of its module's route, filed under `module*name*version` and placed in the DI
    container under that same name. Every proxy shares one transport object: a call first
    points the transport at the proxy's target, then sends. The transport's own `call` is a
    parameter. */
module BalancedRegistry {
  import opened Base
  import opened Json
  import opened Runtime
  import opened OrderedMaps
  import opened RoutesConfig
  import DI
  import ClientRegistry
  import RpcClient

  /** `RpcServiceDefinition`: `module`, `name` and `version` of a remote service. */
  datatype RpcServiceDefinition = RpcServiceDefinition(moduleName: string, name: string, version: string)

  /** The injection token the applications compute for a definition (`getRpcApiToken`). */
  function RpcApiToken(d: RpcServiceDefinition): string {
    d.moduleName + "*" + d.name + "*" + d.version
  }

  /** `route?.target || ''` for the first route named after the module. */
  function RouteTarget(routes: seq<RouteConfig>, moduleName: string): (t: string)
    ensures (forall i :: 0 <= i < |routes| ==> routes[i].name != moduleName) ==> t == ""
    ensures forall i :: (0 <= i < |routes| && routes[i].name == moduleName
                         && forall j :: 0 <= j < i ==> routes[j].name != moduleName) ==> t == routes[i].target
  {
    var route := FindRoute(routes, moduleName);
    if route.Some? then route.value.target else ""
  }

  /** What reading a property of a load-balanced proxy yields. */
  datatype BalancedAccess = Undefined | Call(serviceName: string, prop: string, target: string)

  /** The `get` trap of `createLoadBalancedProxy`: every string key, `then` and `toString`
      included, is a call of that method; a symbol key reads `undefined`. */
  function BalancedGet(proxy: Obj, key: RpcClient.PropertyKey): (a: BalancedAccess)
    requires proxy.BalancedProxy?
    ensures a.Call? <==> key.NameKey?
    ensures a.Call? ==> a.serviceName == proxy.serviceName && a.prop == key.name && a.target == proxy.target
  {
    match key
    case NameKey(name) => Call(proxy.serviceName, name, proxy.target)
    case SymbolKey(_) => Undefined
  }

  /** Unlike a `ServiceProxy` proxy, a load-balanced proxy is a thenable: `await proxy` reads
      `then` and so calls a remote method named `then`. */
  lemma BalancedProxyIsThenable(p: Obj)
    requires p.BalancedProxy?
    ensures BalancedGet(p, RpcClient.NameKey("then")) == Call(p.serviceName, "then", p.target)
    ensures RpcClient.GetTrap(p.serviceName, RpcClient.NameKey("then")).Inherited?
  {
    RpcClient.ProxyIsNotThenable(p.serviceName);
  }

  /** The shared transport; only its base URL is modelled. */
  class Transport {
    var baseUrl: string

    constructor (baseUrl: string)
      ensures this.baseUrl == baseUrl
    {
      this.baseUrl := baseUrl;
    }
  }

  class ServiceRegistry {
    const proxy: Transport
    /** `proxies`, by service name. */
    var proxies: map<string, Obj>
    /** `serviceDefinitions`, in registration order. */
    var definitions: OMap<string, ClientRegistry.ServiceDefinition>

    /** Each registered proxy is bound to the name it is filed under, which also names its
        definition, whose method list is empty. */
    ghost predicate Valid()
      reads this
    {
      && definitions.Valid()
      && proxies.Keys == definitions.table.Keys
      && forall s :: s in proxies ==> proxies[s].BalancedProxy? && proxies[s].serviceName == s
                                      && definitions.table[s] == ClientRegistry.ServiceDefinition(s, [])
    }

    constructor (proxy: Transport)
      ensures Valid() && this.proxy == proxy && proxies == map[] && definitions == Empty()
    {
      this.proxy := proxy;
      proxies := map[];
      definitions := Empty();
    }

    /** `registerRpcService(definition)`: a proxy bound to the module's route target, filed and
        placed in the container under the application's injection token, replacing whatever was
        there. */
    method RegisterRpcService(c: DI.DIContainer, routes: seq<RouteConfig>, d: RpcServiceDefinition)
      requires Valid() && c.Valid()
      modifies this, c
      ensures Valid() && c.Valid()
      ensures var p := BalancedProxy(RpcApiToken(d), RouteTarget(routes, d.moduleName));
              && proxies == old(proxies)[RpcApiToken(d) := p]
              && definitions == old(definitions).Set(RpcApiToken(d), ClientRegistry.ServiceDefinition(RpcApiToken(d), []))
              && c.instances == old(c.instances)[Named(RpcApiToken(d)) := p]
      ensures c.services == old(c.services) && c.requestScopes == old(c.requestScopes) && c.created == old(c.created)
    {
      var route := FindRoute(routes, d.moduleName);
      var serviceName := d.moduleName + "*" + d.name + "*" + d.version;
      var p := BalancedProxy(serviceName, if route.Some? then route.value.target else "");
      proxies := proxies[serviceName := p];
      definitions := definitions.Set(serviceName, ClientRegistry.ServiceDefinition(serviceName, []));
      c.RegisterInstance(Named(serviceName), p);
    }

    /** Calling `prop` on a registered proxy: the shared transport is pointed at the proxy's target,
        then `call(baseUrl, serviceName, prop, args)` sends. */
    method Invoke(p: Obj, prop: string, args: seq<Json>, call: (string, string, string, seq<Json>) -> Result<Json, string>)
      returns (r: Result<Json, string>)
      requires p.BalancedProxy?
      modifies proxy
      ensures proxy.baseUrl == p.target
      ensures r == call(p.target, p.serviceName, prop, args)
    {
      var access := BalancedGet(p, RpcClient.NameKey(prop));
      proxy.baseUrl := access.target;
      r := call(proxy.baseUrl, access.serviceName, access.prop, args);
    }
  }

  /** The business application's services live in module `auth`, which has a route: their
      proxies target the auth service. */
  lemma BusinessTargets(env: string -> Option<string>)
    ensures RouteTarget(RpcRoutes(env), "auth") == OrElse(env("AUTH_TARGET"), "http://localhost:3002")
  {
    var routes := RpcRoutes(env);
    assert routes[0].name == "analytics" && routes[1].name == "auth";
  }

  /** The bookings application's user service lives in module `analytics`, the first route: its
      proxy targets the analytics service. */
  lemma BookingsTargets(env: string -> Option<string>)
    ensures RouteTarget(RpcRoutes(env), "analytics") == OrElse(env("ANALYTICS_TARGET"), "http://localhost:3001")
  {
  }

  /** The payments application's order service lives in module `biz`, which names no route: its
      proxy gets the empty target. */
  lemma PaymentsTargets(env: string -> Option<string>)
    ensures RouteTarget(RpcRoutes(env), "biz") == ""
  {
  }
}
