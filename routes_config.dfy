/** The gateway route tables: a route names a logical service, the path prefix it is
    mounted under and the target it is forwarded to. */
module RoutesConfig {
  import opened Base

  datatype RouteConfig = RouteConfig(name: string, prefix: string, target: string)

  /** `routes.find(r => r.name === name)`: the first route with that name. */
  function FindRoute(routes: seq<RouteConfig>, name: string): (r: Option<RouteConfig>)
    ensures r.None? <==> forall i :: 0 <= i < |routes| ==> routes[i].name != name
    ensures r.Some? ==> exists i :: 0 <= i < |routes| && routes[i] == r.value && r.value.name == name
                                    && forall j :: 0 <= j < i ==> routes[j].name != name
    decreases |routes|
  {
    if |routes| == 0 then None
    else if routes[0].name == name then Some(routes[0])
    else
      var r := FindRoute(routes[1..], name);
      assert forall i :: 1 <= i < |routes| ==> routes[i] == routes[1..][i - 1];
      if r.Some? then
        var i :| 0 <= i < |routes[1..]| && routes[1..][i] == r.value && r.value.name == name
                 && forall j :: 0 <= j < i ==> routes[1..][j].name != name;
        assert routes[i + 1] == r.value;
        r
      else r
  }

  /** In a table whose names are distinct, the route found by a route's own name is that route. */
  lemma FindOwnRoute(routes: seq<RouteConfig>, i: nat)
    requires i < |routes|
    requires forall a, b :: 0 <= a < b < |routes| ==> routes[a].name != routes[b].name
    ensures FindRoute(routes, routes[i].name) == Some(routes[i])
  {
    var r := FindRoute(routes, routes[i].name);
    var k :| 0 <= k < |routes| && routes[k] == r.value && r.value.name == routes[i].name
             && forall j :: 0 <= j < k ==> routes[j].name != routes[i].name;
    assert forall a :: 0 <= a < |routes| && a != i ==> routes[a].name != routes[i].name by {
      forall a | 0 <= a < |routes| && a != i
        ensures routes[a].name != routes[i].name
      {
        if a < i {
          assert routes[a].name != routes[i].name;
        } else {
          assert routes[i].name != routes[a].name;
        }
      }
    }
    assert k == i;
  }

  /** The table of packages/rpc, which the apps' gateway imports; each target is the
      environment variable's value when set, else a localhost default. */
  function RpcRoutes(env: string -> Option<string>): (routes: seq<RouteConfig>)
    ensures |routes| == 5
  {
    [
      RouteConfig("analytics", "/api/analytics", OrElse(env("ANALYTICS_TARGET"), "http://localhost:3001")),
      RouteConfig("auth", "/api/auth/", OrElse(env("AUTH_TARGET"), "http://localhost:3002")),
      RouteConfig("business", "/api/biz/", OrElse(env("BUSINESS_TARGET"), "http://localhost:3004")),
      RouteConfig("payments", "/api/payments", OrElse(env("PAYMENTS_TARGET"), "http://localhost:3005")),
      RouteConfig("report", "/api/report", OrElse(env("REPORT_TARGET"), "http://localhost:3006"))
    ]
  }

  /** The table of the apps' gateway configuration, whose targets are logical service names. */
  const LOGICAL_ROUTES: seq<RouteConfig> := [
    RouteConfig("analytics", "/api/analytics", "analytics"),
    RouteConfig("auth", "/api/auth/", "auth"),
    RouteConfig("booking", "/api/booking/", "booking"),
    RouteConfig("business", "/api/business/", "business"),
    RouteConfig("payments", "/api/payments", "payments"),
    RouteConfig("report", "/api/report", "report")
  ]
}
