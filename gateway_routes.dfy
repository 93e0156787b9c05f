/** What the two gateway routers share: the validation of a route table, the proxy each route
    is served by and the table of proxies it registers, the forwarding headers and the
    classification of proxy errors. */
module GatewayRoutes {
  import opened Base
  import opened Json
  import opened OrderedMaps
  import opened RoutesConfig

  /** The message for a route lacking its prefix or its target. */
  function MissingFields(index: nat): string {
    "Route at index " + NatToString(index) + " is missing required fields (prefix or target)"
  }

  /** The message for a prefix used twice. */
  function DuplicatePrefix(prefix: string): string {
    "Duplicate route prefix: " + prefix
  }

  /** A route whose prefix and target are both set. */
  predicate Complete(route: RouteConfig) {
    route.prefix != "" && route.target != ""
  }

  /** The first `k` routes are complete and their prefixes distinct. */
  ghost predicate WellFormedUpTo(routes: seq<RouteConfig>, k: nat)
    requires k <= |routes|
  {
    && (forall i :: 0 <= i < k ==> Complete(routes[i]))
    && (forall a, b :: 0 <= a < b < k ==> routes[a].prefix != routes[b].prefix)
  }

  /** A table `validateRoutes` accepts. */
  ghost predicate WellFormed(routes: seq<RouteConfig>) {
    WellFormedUpTo(routes, |routes|)
  }

  /** The prefixes of the first `k` routes: the `prefixes` set once `k` routes are checked. */
  function Seen(routes: seq<RouteConfig>, k: nat): (s: set<string>)
    requires k <= |routes|
    ensures forall p :: p in s <==> exists j :: 0 <= j < k && routes[j].prefix == p
  {
    if k == 0 then {} else Seen(routes, k - 1) + {routes[k - 1].prefix}
  }

  /** The error `validateRoutes` throws, checking from route `k` on with the prefixes `seen`. */
  function Check(routes: seq<RouteConfig>, k: nat, seen: set<string>): (r: Option<string>)
    requires k <= |routes|
    decreases |routes| - k
  {
    if k == |routes| then None
    else if !Complete(routes[k]) then Some(MissingFields(k))
    else if routes[k].prefix in seen then Some(DuplicatePrefix(routes[k].prefix))
    else Check(routes, k + 1, seen + {routes[k].prefix})
  }

  /** `validateRoutes()`: one pass over the table with a set of the prefixes met so far, stopping
      at the first incomplete route or repeated prefix. */
  method ValidateRoutes(routes: seq<RouteConfig>) returns (err: Option<string>)
    ensures err == Check(routes, 0, {})
  {
    var prefixes: set<string> := {};
    var index := 0;
    err := None;
    while index < |routes|
      invariant 0 <= index <= |routes|
      invariant Check(routes, index, prefixes) == Check(routes, 0, {})
    {
      var route := routes[index];
      if route.prefix == "" || route.target == "" {
        err := Some(MissingFields(index));
        break;
      }
      if route.prefix in prefixes {
        err := Some(DuplicatePrefix(route.prefix));
        break;
      }
      prefixes := prefixes + {route.prefix};
      index := index + 1;
    }
  }

  /** Checking a well-formed stretch of the table raises nothing: the check resumes at its end. */
  lemma {:induction false} CheckSkips(routes: seq<RouteConfig>, k: nat, i: nat)
    requires k <= i <= |routes| && WellFormedUpTo(routes, i)
    ensures Check(routes, k, Seen(routes, k)) == Check(routes, i, Seen(routes, i))
    decreases i - k
  {
    if k < i {
      forall j | 0 <= j < k
        ensures routes[j].prefix != routes[k].prefix
      {
      }
      assert routes[k].prefix !in Seen(routes, k);
      assert Seen(routes, k) + {routes[k].prefix} == Seen(routes, k + 1);
      CheckSkips(routes, k + 1, i);
    }
  }

  /** A check that raises nothing from `k` on, after a well-formed stretch, saw a well-formed table. */
  lemma {:induction false} CheckPasses(routes: seq<RouteConfig>, k: nat)
    requires k <= |routes| && WellFormedUpTo(routes, k)
    requires Check(routes, k, Seen(routes, k)).None?
    ensures WellFormed(routes)
    decreases |routes| - k
  {
    if k < |routes| {
      assert Complete(routes[k]) && routes[k].prefix !in Seen(routes, k);
      assert Seen(routes, k) + {routes[k].prefix} == Seen(routes, k + 1);
      forall a | 0 <= a < k
        ensures routes[a].prefix != routes[k].prefix
      {
        assert routes[a].prefix in Seen(routes, k);
      }
      CheckPasses(routes, k + 1);
    }
  }

  /** `validateRoutes` accepts a table exactly when every route is complete and no prefix repeats. */
  lemma ValidatesIff(routes: seq<RouteConfig>)
    ensures Check(routes, 0, {}).None? <==> WellFormed(routes)
  {
    assert Seen(routes, 0) == {};
    if WellFormed(routes) {
      CheckSkips(routes, 0, |routes|);
    }
    if Check(routes, 0, {}).None? {
      CheckPasses(routes, 0);
    }
  }

  /** The first offending route is the one reported: an incomplete route by its index, a repeated
      prefix by the prefix. */
  lemma FirstOffenceReported(routes: seq<RouteConfig>, i: nat)
    requires i < |routes| && WellFormedUpTo(routes, i)
    ensures !Complete(routes[i]) ==> Check(routes, 0, {}) == Some(MissingFields(i))
    ensures Complete(routes[i]) && (exists j :: 0 <= j < i && routes[j].prefix == routes[i].prefix) ==>
              Check(routes, 0, {}) == Some(DuplicatePrefix(routes[i].prefix))
  {
    assert Seen(routes, 0) == {};
    CheckSkips(routes, 0, i);
  }

  /** The proxy `createProxyMiddleware(routeConfig)` builds for a route. */
  datatype ProxyMiddleware = ProxyMiddleware(route: RouteConfig)

  /** A stage mounted on the gateway application: a proxy at a prefix, or the global error stage,
      which renders a thrown error exactly as `HttpTransport.ErrorStage` does. */
  datatype Layer = ProxyLayer(prefix: string, proxy: ProxyMiddleware) | ErrorLayer

  /** The layers `setupRoutes` mounts for `routes`, in table order. */
  function ProxyLayers(routes: seq<RouteConfig>): (r: seq<Layer>)
    ensures |r| == |routes|
    ensures forall i :: 0 <= i < |routes| ==> r[i] == ProxyLayer(routes[i].prefix, ProxyMiddleware(routes[i]))
  {
    if |routes| == 0 then [] else [ProxyLayer(routes[0].prefix, ProxyMiddleware(routes[0]))] + ProxyLayers(routes[1..])
  }

  /** Mounting the first route of `routes` after `layers` leaves the rest of the table to mount. */
  lemma LayersStep(layers: seq<Layer>, routes: seq<RouteConfig>)
    requires |routes| > 0
    ensures (layers + [ProxyLayer(routes[0].prefix, ProxyMiddleware(routes[0]))]) + ProxyLayers(routes[1..])
            == layers + ProxyLayers(routes)
  {
  }

  /** `proxyMiddlewares` after `routes` are registered into `m`, one `set(prefix, proxy)` each. */
  function Registered(m: OMap<string, ProxyMiddleware>, routes: seq<RouteConfig>): (r: OMap<string, ProxyMiddleware>)
    requires m.Valid()
    ensures r.Valid()
    decreases |routes|
  {
    if |routes| == 0 then m else Registered(m.Set(routes[0].prefix, ProxyMiddleware(routes[0])), routes[1..])
  }

  /** The prefixes of a table, in order. */
  function Prefixes(routes: seq<RouteConfig>): (r: seq<string>)
    ensures |r| == |routes| && forall i :: 0 <= i < |routes| ==> r[i] == routes[i].prefix
  {
    if |routes| == 0 then [] else [routes[0].prefix] + Prefixes(routes[1..])
  }

  /** Distinct prefixes stay distinct in the tail of the table. */
  lemma TailDistinct(routes: seq<RouteConfig>)
    requires |routes| > 0
    requires forall a, b :: 0 <= a < b < |routes| ==> routes[a].prefix != routes[b].prefix
    ensures forall a, b :: 0 <= a < b < |routes[1..]| ==> routes[1..][a].prefix != routes[1..][b].prefix
  {
    forall a, b | 0 <= a < b < |routes[1..]|
      ensures routes[1..][a].prefix != routes[1..][b].prefix
    {
      assert routes[1..][a] == routes[a + 1] && routes[1..][b] == routes[b + 1];
    }
  }

  /** Registering a table with distinct prefixes, none registered yet, appends its prefixes in
      table order. */
  lemma {:induction false} RegisteredInOrder(m: OMap<string, ProxyMiddleware>, routes: seq<RouteConfig>)
    requires m.Valid()
    requires forall a, b :: 0 <= a < b < |routes| ==> routes[a].prefix != routes[b].prefix
    requires forall i :: 0 <= i < |routes| ==> routes[i].prefix !in m.table
    ensures Registered(m, routes).keys == m.keys + Prefixes(routes)
    decreases |routes|
  {
    if |routes| > 0 {
      var next := m.Set(routes[0].prefix, ProxyMiddleware(routes[0]));
      forall i | 0 <= i < |routes[1..]|
        ensures routes[1..][i].prefix !in next.table
      {
        assert routes[1..][i] == routes[i + 1];
      }
      TailDistinct(routes);
      RegisteredInOrder(next, routes[1..]);
      assert next.keys == m.keys + [routes[0].prefix];
      assert Prefixes(routes) == [routes[0].prefix] + Prefixes(routes[1..]);
      AppendAssociative(m.keys, [routes[0].prefix], Prefixes(routes[1..]));
    }
  }

  /** With distinct prefixes, each route's own proxy is filed under its prefix, and prefixes not
      in the table keep what they had. */
  lemma {:induction false} RegisteredProxies(m: OMap<string, ProxyMiddleware>, routes: seq<RouteConfig>)
    requires m.Valid()
    requires forall a, b :: 0 <= a < b < |routes| ==> routes[a].prefix != routes[b].prefix
    ensures forall i :: 0 <= i < |routes| ==> routes[i].prefix in Registered(m, routes).table
                                              && Registered(m, routes).table[routes[i].prefix] == ProxyMiddleware(routes[i])
    ensures forall p :: p in m.table && (forall i :: 0 <= i < |routes| ==> routes[i].prefix != p) ==>
              p in Registered(m, routes).table && Registered(m, routes).table[p] == m.table[p]
    decreases |routes|
  {
    if |routes| > 0 {
      var next := m.Set(routes[0].prefix, ProxyMiddleware(routes[0]));
      TailDistinct(routes);
      RegisteredProxies(next, routes[1..]);
      var r := Registered(m, routes);
      assert r == Registered(next, routes[1..]);
      forall i | 0 <= i < |routes|
        ensures routes[i].prefix in r.table && r.table[routes[i].prefix] == ProxyMiddleware(routes[i])
      {
        if i > 0 {
          assert routes[1..][i - 1] == routes[i];
        } else {
          assert forall j :: 0 <= j < |routes[1..]| ==> routes[1..][j].prefix != routes[0].prefix by {
            forall j | 0 <= j < |routes[1..]|
              ensures routes[1..][j].prefix != routes[0].prefix
            {
              assert routes[1..][j] == routes[j + 1];
            }
          }
        }
      }
      forall p | p in m.table && (forall i :: 0 <= i < |routes| ==> routes[i].prefix != p)
        ensures p in r.table && r.table[p] == m.table[p]
      {
        assert routes[0].prefix != p;
        assert forall j :: 0 <= j < |routes[1..]| ==> routes[1..][j].prefix != p by {
          forall j | 0 <= j < |routes[1..]|
            ensures routes[1..][j].prefix != p
          {
            assert routes[1..][j] == routes[j + 1];
          }
        }
      }
    }
  }

  /** The table a well-formed route table registers from scratch: its prefixes in table order,
      each filing the route's own proxy. */
  lemma RegisteredTable(routes: seq<RouteConfig>)
    requires WellFormed(routes)
    ensures Registered(Empty(), routes).keys == Prefixes(routes)
    ensures forall i :: 0 <= i < |routes| ==> routes[i].prefix in Registered(Empty(), routes).table
                                              && Registered(Empty(), routes).table[routes[i].prefix] == ProxyMiddleware(routes[i])
  {
    RegisteredInOrder(Empty(), routes);
    RegisteredProxies(Empty(), routes);
  }

  /** The response a proxy error is answered with. */
  datatype ErrorReply = ErrorReply(status: nat, body: Json)

  /** `handleProxyError`: a refused connection is 503 and names the service, a timeout is 504,
      anything else 502; the refused-connection test comes first. */
  function ProxyErrorReply(message: string, target: string): (r: ErrorReply)
    ensures r.status == 503 <==> Contains(message, "ECONNREFUSED")
    ensures r.status == 504 <==> !Contains(message, "ECONNREFUSED") && Contains(message, "ETIMEDOUT")
    ensures r.status == 502 <==> !Contains(message, "ECONNREFUSED") && !Contains(message, "ETIMEDOUT")
    ensures r.body.JObj? && "error" in r.body.fields && "message" in r.body.fields
    ensures "service" in r.body.fields <==> r.status == 503
    ensures r.status == 503 ==> r.body.fields["service"] == JStr(target)
  {
    if Contains(message, "ECONNREFUSED") then
      ErrorReply(503, JObj(map["error" := JStr("Service Unavailable"),
                               "message" := JStr("Service " + target + " is not available"),
                               "service" := JStr(target)]))
    else if Contains(message, "ETIMEDOUT") then
      ErrorReply(504, JObj(map["error" := JStr("Gateway Timeout"),
                               "message" := JStr("Service " + target + " did not respond in time")]))
    else
      ErrorReply(502, JObj(map["error" := JStr("Bad Gateway"),
                               "message" := JStr("Error communicating with service " + target)]))
  }

  /** `addProxyHeaders`: the headers set on the upstream request from the client's ip (or the
      socket's address), protocol and host. */
  function ForwardHeaders(ip: Option<string>, remoteAddress: string, protocol: string, host: Option<string>)
    : (h: map<string, string>)
    ensures h.Keys == {"x-forwarded-for", "x-forwarded-proto", "x-forwarded-host", "x-real-ip"}
    ensures h["x-forwarded-for"] == h["x-real-ip"]
    ensures h["x-forwarded-for"] == if Truthy(ip) then ip.value else remoteAddress
    ensures h["x-forwarded-proto"] == protocol
    ensures h["x-forwarded-host"] == OrElse(host, "")
  {
    var client := OrElse(ip, remoteAddress);
    map["x-forwarded-for" := client, "x-forwarded-proto" := protocol,
        "x-forwarded-host" := OrElse(host, ""), "x-real-ip" := client]
  }

  /** `pathRewrite {'^prefix': ''}`: the prefix is taken off the front of the path. */
  function Rewrite(prefix: string, path: string): (r: string)
    ensures StartsWith(path, prefix) ==> prefix + r == path
    ensures !StartsWith(path, prefix) ==> r == path
  {
    if StartsWith(path, prefix) then path[|prefix|..] else path
  }
}
