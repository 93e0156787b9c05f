/** The client `ServiceRegistry` of packages/rpc: one `ServiceProxy` shared by all remote
    services, a proxy and a definition per service name, and each proxy also placed in the
    DI container under `client_<namespace>_<service>`. */
module ClientRegistry {
  import opened Base
  import opened Runtime
  import opened OrderedMaps
  import DI
  import RpcClient

  /** `ServiceDefinition`: a service name and the method names announced for it. */
  datatype ServiceDefinition = ServiceDefinition(name: string, methods: seq<string>)

  /** One service of a discovery reply. */
  datatype Discovered = Discovered(name: string, methods: seq<string>)

  /** The outcome of `discoverServices()`: a failed request, or the reply's `success` flag and
      `data.services`. */
  datatype DiscoveryReply = DiscoveryFailed | DiscoveryAnswer(success: bool, services: seq<Discovered>)

  /** `ServiceRegistry.getServiceToken(namespace, serviceName)`. */
  function ServiceToken(namespace: string, serviceName: string): string {
    "client_" + namespace + "_" + serviceName
  }

  /** Within one namespace distinct services get distinct container tokens, so registering one
      never overwrites another's container entry. */
  lemma ServiceTokenDistinct(namespace: string, a: string, b: string)
    requires a != b
    ensures ServiceToken(namespace, a) != ServiceToken(namespace, b)
  {
    var head := "client_" + namespace + "_";
    assert ServiceToken(namespace, a) == head + a && ServiceToken(namespace, b) == head + b;
    assert (head + a)[|head|..] == a && (head + b)[|head|..] == b;
  }

  /** The definitions table after `services` are registered one after the other. */
  function Defined(defs: OMap<string, ServiceDefinition>, services: seq<Discovered>): (r: OMap<string, ServiceDefinition>)
    requires defs.Valid()
    ensures r.Valid()
    decreases |services|
  {
    if |services| == 0 then defs
    else Defined(defs.Set(services[0].name, ServiceDefinition(services[0].name, services[0].methods)), services[1..])
  }

  /** Registering services none of which has the name leaves that name's definition, or its
      absence, as it was. */
  lemma {:induction false} DefinedKeepsOthers(defs: OMap<string, ServiceDefinition>, services: seq<Discovered>, name: string)
    requires defs.Valid()
    requires forall i :: 0 <= i < |services| ==> services[i].name != name
    ensures name in Defined(defs, services).table <==> name in defs.table
    ensures name in defs.table ==> Defined(defs, services).table[name] == defs.table[name]
    decreases |services|
  {
    if |services| > 0 {
      var next := defs.Set(services[0].name, ServiceDefinition(services[0].name, services[0].methods));
      assert forall j :: 0 <= j < |services[1..]| ==> services[1..][j] == services[j + 1];
      DefinedKeepsOthers(next, services[1..], name);
    }
  }

  /** After registering `services`, a name among them is defined by its last registration. */
  lemma {:induction false} DefinedLastWins(defs: OMap<string, ServiceDefinition>, services: seq<Discovered>, i: nat)
    requires defs.Valid()
    requires i < |services| && forall j :: i < j < |services| ==> services[j].name != services[i].name
    ensures services[i].name in Defined(defs, services).table
    ensures Defined(defs, services).table[services[i].name] == ServiceDefinition(services[i].name, services[i].methods)
    decreases |services|
  {
    var next := defs.Set(services[0].name, ServiceDefinition(services[0].name, services[0].methods));
    if i == 0 {
      assert forall j :: 0 <= j < |services[1..]| ==> services[1..][j] == services[j + 1];
      DefinedKeepsOthers(next, services[1..], services[0].name);
    } else {
      assert services[1..][i - 1] == services[i];
      assert forall j :: i - 1 < j < |services[1..]| ==> services[1..][j] == services[j + 1];
      DefinedLastWins(next, services[1..], i - 1);
    }
  }

  /** Each of the first `k` discovered services has a proxy, and the container holds that same
      proxy under the service's token. */
  ghost predicate Bound(namespace: string, services: seq<Discovered>, k: nat, proxies: map<string, Obj>, instances: map<Token, Obj>)
    requires k <= |services|
  {
    forall j :: 0 <= j < k ==>
      services[j].name in proxies && Named(ServiceToken(namespace, services[j].name)) in instances
      && instances[Named(ServiceToken(namespace, services[j].name))] == proxies[services[j].name]
  }

  /** Registering service `k` keeps the earlier ones bound: distinct names have distinct tokens. */
  lemma BoundStep(namespace: string, services: seq<Discovered>, k: nat,
                  proxies: map<string, Obj>, instances: map<Token, Obj>, p: Obj)
    requires k < |services| && Bound(namespace, services, k, proxies, instances)
    ensures Bound(namespace, services, k + 1, proxies[services[k].name := p],
                  instances[Named(ServiceToken(namespace, services[k].name)) := p])
  {
    forall j | 0 <= j < k && services[j].name != services[k].name
      ensures Named(ServiceToken(namespace, services[j].name)) != Named(ServiceToken(namespace, services[k].name))
    {
      ServiceTokenDistinct(namespace, services[j].name, services[k].name);
    }
  }

  /** The names of the first `k` discovered services. */
  function NamesUpTo(services: seq<Discovered>, k: nat): set<string>
    requires k <= |services|
  {
    set j | 0 <= j < k :: services[j].name
  }

  /** The container tokens of the first `k` discovered services. */
  function TokensUpTo(namespace: string, services: seq<Discovered>, k: nat): set<Token>
    requires k <= |services|
  {
    set j | 0 <= j < k :: Named(ServiceToken(namespace, services[j].name))
  }

  /** `b` is `a` with entries written at the keys of `touched` and nowhere else. */
  ghost predicate OnlyAt<K, V>(a: map<K, V>, b: map<K, V>, touched: set<K>) {
    && b.Keys == a.Keys + touched
    && forall x :: x in a && x !in touched ==> b[x] == a[x]
  }

  /** Writing one more key extends the touched set by that key. */
  lemma OnlyAtStep<K, V>(a: map<K, V>, b: map<K, V>, touched: set<K>, x: K, v: V)
    requires OnlyAt(a, b, touched)
    ensures OnlyAt(a, b[x := v], touched + {x})
  {
  }

  /** Registering the first `k` discovered services touched only their names and tokens: other
      names keep their proxies, other tokens their objects, and cached proxies stay cached. */
  ghost predicate TouchedOnly(namespace: string, services: seq<Discovered>, k: nat,
                              proxies0: map<string, Obj>, proxies1: map<string, Obj>,
                              instances0: map<Token, Obj>, instances1: map<Token, Obj>,
                              cache0: map<string, Obj>, cache1: map<string, Obj>)
    requires k <= |services|
  {
    && OnlyAt(proxies0, proxies1, NamesUpTo(services, k))
    && OnlyAt(instances0, instances1, TokensUpTo(namespace, services, k))
    && OnlyAt(cache0, cache1, NamesUpTo(services, k))
    && DI.Extends(cache0, cache1)
  }

  /** Registering service `k` (memoised, so a cached proxy is reused) extends what was touched
      by its name and token. */
  lemma TouchedStep(namespace: string, services: seq<Discovered>, k: nat,
                    proxies0: map<string, Obj>, proxies1: map<string, Obj>,
                    instances0: map<Token, Obj>, instances1: map<Token, Obj>,
                    cache0: map<string, Obj>, cache1: map<string, Obj>, p: Obj)
    requires k < |services|
    requires TouchedOnly(namespace, services, k, proxies0, proxies1, instances0, instances1, cache0, cache1)
    requires services[k].name in cache1 ==> cache1[services[k].name] == p
    ensures TouchedOnly(namespace, services, k + 1, proxies0, proxies1[services[k].name := p],
                        instances0, instances1[Named(ServiceToken(namespace, services[k].name)) := p],
                        cache0, cache1[services[k].name := p])
  {
    assert NamesUpTo(services, k + 1) == NamesUpTo(services, k) + {services[k].name};
    assert TokensUpTo(namespace, services, k + 1) == TokensUpTo(namespace, services, k) + {Named(ServiceToken(namespace, services[k].name))};
    OnlyAtStep(proxies0, proxies1, NamesUpTo(services, k), services[k].name, p);
    OnlyAtStep(instances0, instances1, TokensUpTo(namespace, services, k), Named(ServiceToken(namespace, services[k].name)), p);
    OnlyAtStep(cache0, cache1, NamesUpTo(services, k), services[k].name, p);
  }

  class ServiceRegistry {
    const proxy: RpcClient.ServiceProxy
    /** `proxies`, by service name. */
    var proxies: map<string, Obj>
    /** `serviceDefinitions`, in registration order. */
    var definitions: OMap<string, ServiceDefinition>

    /** Every registered name has a definition under that name and the proxy the shared
        `ServiceProxy` caches for it, and nothing else is registered. */
    ghost predicate Valid()
      reads this, proxy
    {
      && proxy.Valid() && definitions.Valid()
      && proxies.Keys == definitions.table.Keys
      && forall s :: s in proxies ==> s in proxy.serviceCache && proxies[s] == proxy.serviceCache[s]
                                      && definitions.table[s].name == s
    }

    constructor (proxy: RpcClient.ServiceProxy)
      requires proxy.Valid()
      ensures Valid() && this.proxy == proxy && proxies == map[] && definitions == Empty()
    {
      this.proxy := proxy;
      proxies := map[];
      definitions := Empty();
    }

    /** `registerService(namespace, serviceName, methods)`: the service's (memoised) proxy is filed
        under its name with its definition, and placed in the container under its client token. */
    method RegisterService(c: DI.DIContainer, namespace: string, serviceName: string, methods: seq<string>)
      returns (p: Obj)
      requires Valid() && c.Valid()
      modifies this, proxy, c
      ensures Valid() && c.Valid()
      ensures p.ClientProxy? && p.service == serviceName
      ensures serviceName in old(proxy.serviceCache) ==> p == old(proxy.serviceCache)[serviceName]
      ensures proxies == old(proxies)[serviceName := p]
      ensures definitions == old(definitions).Set(serviceName, ServiceDefinition(serviceName, methods))
      ensures GetService(serviceName) == Ok(p)
      ensures c.instances == old(c.instances)[Named(ServiceToken(namespace, serviceName)) := p]
      ensures c.services == old(c.services) && c.requestScopes == old(c.requestScopes) && c.created == old(c.created)
      ensures c.allClassRelationMap == old(c.allClassRelationMap) && c.routesPermitAllMap == old(c.routesPermitAllMap)
      ensures proxy.serviceCache == old(proxy.serviceCache)[serviceName := p] && proxy.commonHeaders == old(proxy.commonHeaders)
    {
      p := proxy.CreateProxy(serviceName);
      proxies := proxies[serviceName := p];
      definitions := definitions.Set(serviceName, ServiceDefinition(serviceName, methods));
      c.RegisterInstance(Named(ServiceToken(namespace, serviceName)), p);
    }

    /** `getService(serviceName)`. */
    function GetService(serviceName: string): (r: Result<Obj, string>)
      reads this
      ensures r.Ok? <==> serviceName in proxies
      ensures r.Ok? ==> r.value == proxies[serviceName]
      ensures r.Err? ==> r.error == "Service not found: " + serviceName
    {
      if serviceName in proxies then Ok(proxies[serviceName]) else Err("Service not found: " + serviceName)
    }

    /** `getServiceDefinition(serviceName)`. */
    function GetServiceDefinition(serviceName: string): (r: Option<ServiceDefinition>)
      reads this
      ensures r.None? <==> serviceName !in definitions.table
      ensures r.Some? ==> r.value == definitions.table[serviceName]
    {
      definitions.Get(serviceName)
    }

    /** `getAllServices()`: the definitions, in registration order. */
    function GetAllServices(): (r: seq<ServiceDefinition>)
      reads this
      requires definitions.Valid()
      ensures forall d :: d in r <==> exists s :: s in definitions.table && definitions.table[s] == d
    {
      var r := definitions.Values();
      assert forall s :: s in definitions.table ==> s in definitions.keys;
      assert forall s :: s in definitions.table ==> exists i :: 0 <= i < |definitions.keys| && definitions.keys[i] == s;
      r
    }

    /** `autoDiscover(namespace)` given the discovery outcome: a successful reply registers every
        service in it, in order; a failed request or an unsuccessful reply changes nothing. */
    method AutoDiscover(c: DI.DIContainer, namespace: string, reply: DiscoveryReply)
      requires Valid() && c.Valid()
      modifies this, proxy, c
      ensures Valid() && c.Valid()
      ensures c.services == old(c.services) && c.requestScopes == old(c.requestScopes) && c.created == old(c.created)
      ensures c.allClassRelationMap == old(c.allClassRelationMap) && c.routesPermitAllMap == old(c.routesPermitAllMap)
      ensures proxy.commonHeaders == old(proxy.commonHeaders)
      ensures reply.DiscoveryAnswer? && reply.success ==>
                definitions == Defined(old(definitions), reply.services) && Bound(namespace, reply.services, |reply.services|, proxies, c.instances)
      // nothing but the reply's services is touched: other names keep their proxies, other
      // tokens their objects, and cached proxies stay cached
      ensures reply.DiscoveryAnswer? && reply.success ==>
                TouchedOnly(namespace, reply.services, |reply.services|, old(proxies), proxies,
                            old(c.instances), c.instances, old(proxy.serviceCache), proxy.serviceCache)
      ensures !(reply.DiscoveryAnswer? && reply.success) ==>
                proxies == old(proxies) && definitions == old(definitions) && c.instances == old(c.instances)
                && proxy.serviceCache == old(proxy.serviceCache)
    {
      if reply.DiscoveryFailed? || !reply.success {
        return;
      }
      var services := reply.services;
      var i := 0;
      while i < |services|
        invariant 0 <= i <= |services|
        invariant Valid() && c.Valid() && c.services == old(c.services)
        invariant Defined(definitions, services[i..]) == Defined(old(definitions), services)
        invariant Bound(namespace, services, i, proxies, c.instances)
        invariant c.requestScopes == old(c.requestScopes) && c.created == old(c.created)
        invariant c.allClassRelationMap == old(c.allClassRelationMap) && c.routesPermitAllMap == old(c.routesPermitAllMap)
        invariant proxy.commonHeaders == old(proxy.commonHeaders)
        invariant TouchedOnly(namespace, services, i, old(proxies), proxies,
                              old(c.instances), c.instances, old(proxy.serviceCache), proxy.serviceCache)
      {
        assert services[i..][1..] == services[i + 1..];
        ghost var (before, cached, memo) := (proxies, c.instances, proxy.serviceCache);
        var p := RegisterService(c, namespace, services[i].name, services[i].methods);
        BoundStep(namespace, services, i, before, cached, p);
        TouchedStep(namespace, services, i, old(proxies), before, old(c.instances), cached, old(proxy.serviceCache), memo, p);
        i := i + 1;
      }
    }
  }
}
