/** The client half of RPC: `ServiceProxy` hands out one proxy object per remote service,
    turns every ordinary property read on it into a remote method, posts the call envelope
    to `/rpc` and unwraps the reply. The HTTP post itself is a parameter. */
module RpcClient {
  import opened Base
  import opened Json
  import opened Runtime
  import opened OrderedMaps
  import opened ScanCatalogue
  import HttpTransport

  /** The names `name in Object.prototype` holds for. */
  const OBJECT_PROTOTYPE_NAMES: set<string> := {
    "constructor", "__defineGetter__", "__defineSetter__", "hasOwnProperty",
    "__lookupGetter__", "__lookupSetter__", "isPrototypeOf", "propertyIsEnumerable",
    "toString", "valueOf", "__proto__", "toLocaleString"
  }

  /** A property key: a symbol or a string. */
  datatype PropertyKey = SymbolKey(description: string) | NameKey(name: string)

  /** What a property read on a service proxy yields: the empty target's own (inherited)
      property, or a function that calls `methodName` on `service`. */
  datatype Access = Inherited(key: PropertyKey) | RemoteMethod(service: string, methodName: string)

  /** The `get` trap of `createProxy(service)`. */
  function GetTrap(service: string, key: PropertyKey): (a: Access)
    ensures a.RemoteMethod? <==>
              key.NameKey? && key.name !in OBJECT_PROTOTYPE_NAMES && key.name != "then" && key.name != "catch"
    ensures a.RemoteMethod? ==> a == RemoteMethod(service, key.name)
    ensures a.Inherited? ==> a.key == key
  {
    match key
    case SymbolKey(_) => Inherited(key)
    case NameKey(name) =>
      if name in OBJECT_PROTOTYPE_NAMES || name == "then" || name == "catch" then Inherited(key)
      else RemoteMethod(service, name)
  }

  /** A proxy is not a thenable: awaiting it, or returning it from an async function, does not
      turn into a remote call, and neither does `toString` or `valueOf`. */
  lemma ProxyIsNotThenable(service: string)
    ensures GetTrap(service, NameKey("then")) == Inherited(NameKey("then"))
    ensures GetTrap(service, NameKey("catch")) == Inherited(NameKey("catch"))
    ensures GetTrap(service, NameKey("toString")) == Inherited(NameKey("toString"))
  {
  }

  /** The body of the `POST /rpc` a proxy call sends. */
  datatype Envelope = Envelope(service: string, methodName: string, args: seq<Json>,
                               requestId: string, timestamp: int, caller: string)

  /** The envelope `callRemoteMethod` builds; `requestId` is the generated
      `client-<time>-<random>` id and `now` the clock. */
  function CallEnvelope(service: string, methodName: string, args: seq<Json>, requestId: string, now: int): (e: Envelope)
    ensures e.service == service && e.methodName == methodName && e.args == args
    ensures e.caller == "typescript-client" && e.requestId == requestId && e.timestamp == now
  {
    Envelope(service, methodName, args, requestId, now, "typescript-client")
  }

  /** The reply body as the client reads it: `success`, `data` and `error?.message`. */
  datatype ReplyBody = ReplyBody(success: bool, data: Json, errorMessage: Option<string>)

  /** What the post yields: a 2xx answer, or a rejection that may carry the response body. */
  datatype PostResult = Answered(body: ReplyBody) | HttpFailure(responseBody: Option<ReplyBody>, error: string)

  /** How a call fails: with the remote error message, or with the transport's own error rethrown. */
  datatype ClientError = RemoteError(message: string) | TransportError(error: string)

  /** `error?.message || 'RPC call failed'`. */
  function FailureMessage(body: ReplyBody): (m: string)
    ensures m != ""
  {
    OrElse(body.errorMessage, "RPC call failed")
  }

  /** The reply handling of `callRemoteMethod`. */
  function Unwrap(post: PostResult): (r: Result<Json, ClientError>)
    ensures r.Ok? <==> post.Answered? && post.body.success
    ensures r.Ok? ==> r.value == post.body.data
    ensures post.Answered? && !post.body.success ==> r == Err(RemoteError(FailureMessage(post.body)))
    ensures post.HttpFailure? && post.responseBody.Some? ==> r == Err(RemoteError(FailureMessage(post.responseBody.value)))
    ensures post.HttpFailure? && post.responseBody.None? ==> r == Err(TransportError(post.error))
  {
    match post
    case Answered(body) => if body.success then Ok(body.data) else Err(RemoteError(FailureMessage(body)))
    case HttpFailure(Some(body), _) => Err(RemoteError(FailureMessage(body)))
    case HttpFailure(None, error) => Err(TransportError(error))
  }

  /** The headers of the axios instance before `config.headers` are spread over them. */
  const DEFAULT_HEADERS: map<string, string> := map[
    "Content-Type" := "application/json",
    "user-agent" := "Mozilla/5.0 (Macintosh; Intel Mac OS X 10_15_7) AppleWebKit/537.36 (KHTML, like Gecko) Chrome/142.0.0.0 Safari/537.36"
  ]

  /** The headers a request goes out with: the configured ones, then the request interceptor's
      `x-rpc-token` when `RPC_TOKEN` is set. */
  function OutgoingHeaders(configured: map<string, string>, rpcToken: Option<string>): (h: map<string, string>)
    ensures Truthy(rpcToken) ==> h == configured["x-rpc-token" := rpcToken.value]
    ensures !Truthy(rpcToken) ==> h == configured
  {
    if Truthy(rpcToken) then configured["x-rpc-token" := rpcToken.value] else configured
  }

  /** The headers of a request from an axios instance: `defaults.headers.common` first, the
      instance headers fixed at creation over them, then the interceptor's `x-rpc-token`. So a
      header given to the constructor beats one set later through `setAuthToken` or `setHeaders`. */
  function RequestHeaders(instance: map<string, string>, common: map<string, string>, rpcToken: Option<string>)
    : (h: map<string, string>)
    ensures forall k :: k in h <==> k in instance || k in common || (k == "x-rpc-token" && Truthy(rpcToken))
    ensures Truthy(rpcToken) ==> h["x-rpc-token"] == rpcToken.value
    ensures forall k :: k in instance && !(k == "x-rpc-token" && Truthy(rpcToken)) ==> h[k] == instance[k]
    ensures forall k :: k in common && k !in instance && !(k == "x-rpc-token" && Truthy(rpcToken)) ==> h[k] == common[k]
  {
    OutgoingHeaders(common + instance, rpcToken)
  }

  /** The request `HttpTransport` reads from an envelope. */
  function Received(e: Envelope): HttpTransport.RpcRequest {
    HttpTransport.RpcRequest(Some(e.service), Some(e.methodName), JArr(e.args), Some(e.requestId))
  }

  /** The server's reply as the client sees it: axios resolves a 2xx reply and rejects any
      other status with the body attached. */
  function Delivered(reply: HttpTransport.RpcReply): PostResult {
    var body := ReplyBody(reply.body.success, reply.body.data,
                          if reply.body.error.Some? then Some(reply.body.error.value.message) else None);
    if 200 <= reply.status < 300 then Answered(body)
    else HttpFailure(Some(body), "Request failed with status code " + NatToString(reply.status))
  }

  /** End to end: a proxy call answered by `HttpTransport` returns exactly what the remote method
      returned, and a failure of any kind on the server side surfaces as a `RemoteError` carrying
      the server's message; the reply echoes the client's request id. */
  lemma CallRoundTrip(catalogue: OMap<string, ScannedService>, service: string, methodName: string, args: seq<Json>,
                      requestId: string, serverId: string, start: int, now: int,
                      expected: Option<string>, provided: Option<string>,
                      invoke: (Obj, string, seq<Json>) -> Result<Json, string>)
    requires Keyed(catalogue)
    ensures var call := Received(CallEnvelope(service, methodName, args, requestId, now));
            var reply := HttpTransport.HandleRpcCall(catalogue, call, expected, provided, serverId, start, now, invoke);
            var outcome := HttpTransport.RpcOutcome(catalogue, call, expected, provided, invoke);
            && (requestId != "" ==> reply.body.requestId == requestId)
            && (outcome.Ok? ==> Unwrap(Delivered(reply)) == Ok(outcome.value))
            && (outcome.Err? ==> Unwrap(Delivered(reply)) == Err(RemoteError(if outcome.error == "" then "RPC call failed" else outcome.error)))
  {
  }

  /** Client and server started with the same non-empty `RPC_TOKEN`: the token check lets the
      call through, and it is dispatched as if no token were configured. */
  lemma SharedTokenAdmits(catalogue: OMap<string, ScannedService>, e: Envelope, configured: map<string, string>,
                          token: string, invoke: (Obj, string, seq<Json>) -> Result<Json, string>)
    requires Keyed(catalogue) && token != ""
    ensures var sent := OutgoingHeaders(configured, Some(token));
            && "x-rpc-token" in sent
            && HttpTransport.RpcOutcome(catalogue, Received(e), Some(token), Some(sent["x-rpc-token"]), invoke)
               == HttpTransport.RpcOutcome(catalogue, Received(e), None, None, invoke)
  {
  }

  /** `ServiceProxy`: one axios client plus the per-service proxy cache. */
  class ServiceProxy {
    const baseUrl: string
    const timeout: nat
    /** The instance headers fixed at construction. */
    const headers: map<string, string>
    /** `client.defaults.headers.common`. */
    var commonHeaders: map<string, string>
    /** `serviceCache`, by service name. */
    var serviceCache: map<string, Obj>
    /** How many proxies this object has made; the next one gets this serial. */
    var made: nat

    /** Every cached proxy is for the name it is cached under and was made by this object. */
    ghost predicate Valid()
      reads this
    {
      forall s :: s in serviceCache ==> serviceCache[s].ClientProxy? && serviceCache[s].service == s
                                        && serviceCache[s].serial < made
    }

    /** `new ServiceProxy({baseURL, timeout?, headers?})`. */
    constructor (baseUrl: string, timeout: Option<nat>, headers: map<string, string>)
      ensures Valid() && serviceCache == map[] && made == 0 && commonHeaders == map[]
      ensures this.baseUrl == baseUrl
      ensures this.timeout == if timeout.Some? && timeout.value != 0 then timeout.value else 30000
      ensures this.headers == DEFAULT_HEADERS + headers
    {
      this.baseUrl := baseUrl;
      this.timeout := if timeout.Some? && timeout.value != 0 then timeout.value else 30000;
      this.headers := DEFAULT_HEADERS + headers;
      commonHeaders := map[];
      serviceCache := map[];
      made := 0;
    }

    /** `createProxy(serviceName)`: the cached proxy when there is one, otherwise a new proxy,
        distinct from every proxy made before, which is cached. */
    method CreateProxy(serviceName: string) returns (p: Obj)
      requires Valid()
      modifies this
      ensures Valid() && commonHeaders == old(commonHeaders)
      ensures p.ClientProxy? && p.service == serviceName
      ensures serviceName in old(serviceCache) ==>
                p == old(serviceCache)[serviceName] && serviceCache == old(serviceCache) && made == old(made)
      ensures serviceName !in old(serviceCache) ==>
                serviceCache == old(serviceCache)[serviceName := p] && made == old(made) + 1
                && forall s :: s in old(serviceCache) ==> old(serviceCache)[s] != p
    {
      if serviceName in serviceCache {
        return serviceCache[serviceName];
      }
      p := ClientProxy(made, serviceName);
      serviceCache := serviceCache[serviceName := p];
      made := made + 1;
    }

    /** `callRemoteMethod(service, method, args)` given the generated request id, the clock,
        `RPC_TOKEN` and the post. */
    function CallRemoteMethod(service: string, methodName: string, args: seq<Json>, requestId: string, now: int,
                              rpcToken: Option<string>, post: (Envelope, map<string, string>) -> PostResult)
      : (r: Result<Json, ClientError>)
      reads this
      ensures var sent := post(CallEnvelope(service, methodName, args, requestId, now), RequestHeaders(headers, commonHeaders, rpcToken));
              && (r.Ok? <==> sent.Answered? && sent.body.success)
              && (r.Ok? ==> r.value == sent.body.data)
              && (sent.Answered? && !sent.body.success ==> r == Err(RemoteError(FailureMessage(sent.body))))
              && (sent.HttpFailure? && sent.responseBody.Some? ==> r == Err(RemoteError(FailureMessage(sent.responseBody.value))))
              && (sent.HttpFailure? && sent.responseBody.None? ==> r == Err(TransportError(sent.error)))
    {
      Unwrap(post(CallEnvelope(service, methodName, args, requestId, now), RequestHeaders(headers, commonHeaders, rpcToken)))
    }

    /** `setAuthToken(token)`: the common `Authorization` header becomes `Bearer <token>`. */
    method SetAuthToken(token: string)
      modifies this
      ensures commonHeaders == old(commonHeaders)["Authorization" := "Bearer " + token]
      ensures serviceCache == old(serviceCache) && made == old(made)
    {
      commonHeaders := commonHeaders["Authorization" := "Bearer " + token];
    }

    /** `setHeaders(headers)`: merged over the common headers, the new values winning. */
    method SetHeaders(extra: map<string, string>)
      modifies this
      ensures commonHeaders == old(commonHeaders) + extra
      ensures serviceCache == old(serviceCache) && made == old(made)
    {
      commonHeaders := commonHeaders + extra;
    }
  }
}
