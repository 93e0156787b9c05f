/** `HttpTransport`: how a service process answers HTTP. Controller routes are
    mounted from the scanner's catalogue under normalised paths, each bound handler
    runs the permit-all / bearer-token gate and then binds the method's arguments
    from the request, `/rpc` dispatches a call envelope to an rpc service, and every
    error a handler passes on is rendered by the global error stage. */
module HttpTransport {
  import opened Base
  import opened Json
  import opened Errors
  import opened ResponseUtil
  import opened Runtime
  import opened Metadata
  import opened OrderedMaps
  import opened ScanCatalogue
  import Decorators
  import PackagesScanner
  import DI

  // ---------------------------------------------------------------------------
  // normalizePath

  /** `s.replace(/\/+/g, '/')`: every run of slashes becomes one slash. */
  function CollapseSlashes(s: string): string
    decreases |s|
  {
    if |s| == 0 then ""
    else if |s| >= 2 && s[0] == '/' && s[1] == '/' then CollapseSlashes(s[1..])
    else [s[0]] + CollapseSlashes(s[1..])
  }

  predicate NoDoubleSlash(s: string) {
    forall i :: 0 <= i < |s| - 1 ==> !(s[i] == '/' && s[i + 1] == '/')
  }

  /** `s` with every slash removed: what path normalisation must keep. */
  function Unslashed(s: string): string
    decreases |s|
  {
    if |s| == 0 then ""
    else if s[0] == '/' then Unslashed(s[1..])
    else [s[0]] + Unslashed(s[1..])
  }

  /** `normalizePath(...paths)`. */
  function NormalizePath(paths: seq<string>): (r: string)
    ensures StartsWith(r, "/") && NoDoubleSlash(r)
  {
    var joined := CollapseSlashes(Join(paths, "/"));
    CollapseShape(Join(paths, "/"));
    if StartsWith(joined, "/") then joined else "/" + joined
  }

  /** Collapsing leaves no doubled slash and keeps the first character. */
  lemma {:induction false} CollapseShape(s: string)
    ensures NoDoubleSlash(CollapseSlashes(s))
    ensures |s| > 0 ==> |CollapseSlashes(s)| > 0 && CollapseSlashes(s)[0] == s[0]
    decreases |s|
  {
    if |s| > 0 {
      CollapseShape(s[1..]);
    }
  }

  /** Collapsing changes nothing in a path that has no doubled slash. */
  lemma {:induction false} CollapseFixes(s: string)
    requires NoDoubleSlash(s)
    ensures CollapseSlashes(s) == s
    decreases |s|
  {
    if |s| > 0 {
      assert NoDoubleSlash(s[1..]) by {
        forall i | 0 <= i < |s[1..]| - 1 ensures !(s[1..][i] == '/' && s[1..][i + 1] == '/') {
          assert s[1..][i] == s[i + 1] && s[1..][i + 1] == s[i + 2];
        }
      }
      CollapseFixes(s[1..]);
    }
  }

  /** Collapsing drops slashes only. */
  lemma {:induction false} CollapseKeepsText(s: string)
    ensures Unslashed(CollapseSlashes(s)) == Unslashed(s)
    decreases |s|
  {
    if |s| > 0 {
      CollapseKeepsText(s[1..]);
    }
  }

  /** Normalisation keeps every non-slash character of the joined segments, in order. */
  lemma NormalizeKeepsText(paths: seq<string>)
    ensures Unslashed(NormalizePath(paths)) == Unslashed(Join(paths, "/"))
  {
    var joined := CollapseSlashes(Join(paths, "/"));
    CollapseKeepsText(Join(paths, "/"));
    if !StartsWith(joined, "/") {
      assert ("/" + joined)[1..] == joined;
    }
  }

  /** A normalised path normalises to itself. */
  lemma NormalizeIdempotent(paths: seq<string>)
    ensures NormalizePath([NormalizePath(paths)]) == NormalizePath(paths)
  {
    var p := NormalizePath(paths);
    CollapseFixes(p);
  }

  /** An empty base path: `normalizePath('', '/login')` is '/login'. */
  lemma NormalizeEmptyBase()
    ensures NormalizePath(["", "/login"]) == "/login"
  {
    assert Join(["", "/login"], "/") == "//login";
    assert CollapseSlashes("//login") == CollapseSlashes("/login");
    CollapseFixes("/login");
  }

  // ---------------------------------------------------------------------------
  // The verb switch of buildControllerRoutes

  datatype Verb = GET | POST | PUT | DELETE | PATCH

  function VerbText(v: Verb): string {
    match v
    case GET => "GET"
    case POST => "POST"
    case PUT => "PUT"
    case DELETE => "DELETE"
    case PATCH => "PATCH"
  }

  /** `switch (route.method?.toUpperCase())`: the verb a route is mounted under, if any. */
  function RouteVerb(httpMethod: string): (v: Option<Verb>)
    ensures v.Some? <==> ToUpper(httpMethod) in {"GET", "POST", "PUT", "DELETE", "PATCH"}
    ensures v.Some? ==> VerbText(v.value) == ToUpper(httpMethod)
  {
    var u := ToUpper(httpMethod);
    if u == "GET" then Some(GET)
    else if u == "POST" then Some(POST)
    else if u == "PUT" then Some(PUT)
    else if u == "DELETE" then Some(DELETE)
    else if u == "PATCH" then Some(PATCH)
    else None
  }

  /** The verb match ignores case: upper-casing first changes nothing. */
  lemma RouteVerbIgnoresCase(httpMethod: string)
    ensures RouteVerb(ToUpper(httpMethod)) == RouteVerb(httpMethod)
  {
    assert ToUpper(ToUpper(httpMethod)) == ToUpper(httpMethod);
  }

  // ---------------------------------------------------------------------------
  // Requests, arguments and handler outcomes

  /** What a bound handler reads from an Express request. Header names are lower-case. */
  datatype HttpRequest = HttpRequest(
    verb: string,
    query: map<string, Json>,
    body: Json,
    params: map<string, string>,
    headers: map<string, string>)

  /** One slot of the argument array: never written, the request (carrying the identity the
      gate attached), the response, or a value. */
  datatype Arg = Hole | RequestArg(user: Option<Json>) | ResponseArg | Value(v: Json)

  /** What a controller method did: its result, and whether it wrote the response itself. */
  datatype Invocation = Invocation(result: Json, sentDirectly: bool)

  /** What the client receives from a bound handler. */
  datatype Outcome = JsonBody(body: Json) | Envelope(response: BaseResponse) | NoBody

  /** `new CommonError(item)` as raised by the gate. */
  function GateError(item: ErrorItem): Thrown {
    Common(CommonError(CodeItem(item), None))
  }

  /** The global error stage: a `CommonError` with a string code renders that code and its
      message, one with an error item renders the item, anything else is SYSTEM_EXCEPTION. */
  function ErrorStage(e: Thrown): (r: BaseResponse)
    ensures e.Common? && e.err.code.CodeString? ==> r == CommonErrorResponse(e.err.code.code, e.err.Message(), JUndefined)
    ensures e.Common? && e.err.code.CodeItem? ==> r == CommonErrorResponse(e.err.code.item.code, e.err.code.item.msg, JUndefined)
    ensures e.Plain? ==> r == ErrorResponse(SYSTEM_EXCEPTION, JUndefined)
    ensures r.data == JObj(map[])
  {
    match e
    case Common(CommonError(CodeString(code), _)) => CommonErrorResponse(code, e.err.Message(), JUndefined)
    case Common(CommonError(CodeItem(item), _)) => CommonErrorResponse(item.code, item.msg, JUndefined)
    case Plain(_) => ErrorResponse(SYSTEM_EXCEPTION, JUndefined)
  }

  /** An error item raised with a custom message still renders the item's own message. */
  lemma ItemMessageWins(item: ErrorItem, custom: string)
    ensures ErrorStage(Common(CommonError(CodeItem(item), Some(custom)))).msg == item.msg
    ensures ErrorStage(Common(CommonError(CodeItem(item), Some(custom)))).code == item.code
  {
  }

  /** An error that is not a `CommonError` always renders code '1000'. */
  lemma PlainErrorsAreSystemExceptions(message: string)
    ensures ErrorStage(Plain(message)).code == "1000"
    ensures ErrorStage(Plain(message)).msg == SYSTEM_EXCEPTION.msg
  {
  }

  // ---------------------------------------------------------------------------
  // The auth gate of createParameterBoundHandler

  /** Only the word after the first space counts: the scheme word is never looked at. */
  lemma SchemeIgnored(scheme: string, token: string)
    requires ' ' !in scheme && ' ' !in token
    ensures SecondWord(scheme + " " + token) == token
  {
    var s := scheme + " " + token;
    var k := IndexOf(s, ' ');
    assert s[|scheme|] == ' ';
    assert k == |scheme|;
    assert s[k + 1..] == token;
  }

  /** The verdict of the gate: go on (with the identity the token carried, if one was checked)
      or stop with an error item. */
  datatype Gate = Proceed(user: Option<Json>) | Reject(item: ErrorItem)

  /** `container.checkRoutesPermitAll(token)` is truthy. */
  predicate Permitted(permits: map<string, bool>, token: string) {
    token in permits && permits[token]
  }

  /** Whether a route is exempt from the token check: `Name*method` or `Name*method*VERB` is a permit-all token. */
  predicate Exempt(permits: map<string, bool>, controllerName: string, methodName: string, verb: string) {
    Permitted(permits, controllerName + "*" + methodName)
    || Permitted(permits, controllerName + "*" + methodName + "*" + verb)
  }

  /** The gate in front of every controller method; `verify` is the token verifier, which
      yields the token's user or fails. */
  function AuthGate(permits: map<string, bool>, controllerName: string, methodName: string, req: HttpRequest,
                    verify: string -> Option<Json>): (g: Gate)
    ensures Exempt(permits, controllerName, methodName, req.verb) ==> g == Proceed(None)
    ensures !Exempt(permits, controllerName, methodName, req.verb) ==>
              && (("authorization" !in req.headers || req.headers["authorization"] == "") <==> g == Reject(MISSING_AUTHORIZATION_HEADER))
              && (g == Reject(MISSING_TOKEN) <==>
                    "authorization" in req.headers && req.headers["authorization"] != "" && SecondWord(req.headers["authorization"]) == "")
              && (g.Proceed? ==> g.user.Some? && g.user == verify(SecondWord(req.headers["authorization"])))
              && (g == Reject(INVALID_TOKEN) <==>
                    && "authorization" in req.headers && req.headers["authorization"] != ""
                    && SecondWord(req.headers["authorization"]) != ""
                    && verify(SecondWord(req.headers["authorization"])).None?)
  {
    if Exempt(permits, controllerName, methodName, req.verb) then Proceed(None)
    else if "authorization" !in req.headers || req.headers["authorization"] == "" then Reject(MISSING_AUTHORIZATION_HEADER)
    else
      var token := SecondWord(req.headers["authorization"]);
      if token == "" then Reject(MISSING_TOKEN)
      else
        match verify(token)
        case None => Reject(INVALID_TOKEN)
        case Some(user) => Proceed(Some(user))
  }

  /** A `@PermitAll()` on a controller class, or a `@PermitAll(verb)` matching the request's verb,
      lets the request through without credentials, provided the controller is catalogued
      under its class name (no explicit `name` option). */
  lemma PermitAllExempts(permits: map<string, bool>, cls: ClassRef, methodName: string, verb: Option<string>,
                         req: HttpRequest, verify: string -> Option<Json>)
    requires Decorators.PermitToken(cls.name, methodName, verb) in permits && permits[Decorators.PermitToken(cls.name, methodName, verb)]
    requires verb.Some? ==> verb.value == req.verb
    ensures AuthGate(permits, cls.name, methodName, req, verify) == Proceed(None)
  {
  }

  /** A controller catalogued under an explicit name other than its class name is gated by that
      name, so a `@PermitAll` on its class does not exempt it. */
  lemma PermitAllMissesRenamedController(verify: string -> Option<Json>)
    ensures var cls := ClassRef(1, "UserController", []);
            var permits := map[Decorators.PermitToken(cls.name, "login", None) := true];
            AuthGate(permits, "users", "login", HttpRequest("POST", map[], JNull, map[], map[]), verify)
              == Reject(MISSING_AUTHORIZATION_HEADER)
  {
    var permits := map[Decorators.PermitToken("UserController", "login", None) := true];
    assert Decorators.PermitToken("UserController", "login", None) == "UserController*login";
    assert !Permitted(permits, "users*login");
    assert !Permitted(permits, "users*login*POST");
  }

  // ---------------------------------------------------------------------------
  // Parameter binding

  /** `paramMetadata.sort((a, b) => a.index - b.index)` is stable: `p` goes after every binding
      whose index is not larger. */
  function InsertByIndex(p: ParamMeta, sorted: seq<ParamMeta>): seq<ParamMeta>
    decreases |sorted|
  {
    if |sorted| == 0 then [p]
    else if p.index < sorted[0].index then [p] + sorted
    else [sorted[0]] + InsertByIndex(p, sorted[1..])
  }

  function SortByIndex(ps: seq<ParamMeta>): seq<ParamMeta>
    decreases |ps|
  {
    if |ps| == 0 then [] else InsertByIndex(ps[|ps| - 1], SortByIndex(ps[..|ps| - 1]))
  }

  predicate SortedByIndex(ps: seq<ParamMeta>) {
    forall i, j :: 0 <= i < j < |ps| ==> ps[i].index <= ps[j].index
  }

  /** The bindings of slot `k`, in list order. */
  function OfIndex(ps: seq<ParamMeta>, k: nat): seq<ParamMeta>
    decreases |ps|
  {
    if |ps| == 0 then []
    else if ps[0].index == k then [ps[0]] + OfIndex(ps[1..], k)
    else OfIndex(ps[1..], k)
  }

  /** Inserting adds `p` and keeps every other binding. */
  lemma {:induction false} InsertPermutes(p: ParamMeta, sorted: seq<ParamMeta>)
    ensures multiset(InsertByIndex(p, sorted)) == multiset(sorted) + multiset{p}
    decreases |sorted|
  {
    if |sorted| > 0 && p.index >= sorted[0].index {
      InsertPermutes(p, sorted[1..]);
      assert sorted == [sorted[0]] + sorted[1..];
    }
  }

  /** Inserting into a list sorted by slot keeps it sorted. */
  lemma {:induction false} InsertSorted(p: ParamMeta, sorted: seq<ParamMeta>)
    requires SortedByIndex(sorted)
    ensures SortedByIndex(InsertByIndex(p, sorted))
    decreases |sorted|
  {
    if |sorted| > 0 && p.index >= sorted[0].index {
      var rest := sorted[1..];
      InsertSorted(p, rest);
      InsertPermutes(p, rest);
      var r := InsertByIndex(p, rest);
      forall i | 0 <= i < |r| ensures sorted[0].index <= r[i].index {
        assert r[i] in multiset(r);
        if r[i] != p {
          assert r[i] in multiset(rest);
          var j :| 0 <= j < |rest| && rest[j] == r[i];
          assert sorted[j + 1] == r[i];
        }
      }
    }
  }

  /** Inserting `p` adds it after the bindings of its own slot and leaves every other slot's list alone. */
  lemma {:induction false} InsertOfIndex(p: ParamMeta, sorted: seq<ParamMeta>, k: nat)
    requires SortedByIndex(sorted)
    ensures p.index == k ==> OfIndex(InsertByIndex(p, sorted), k) == OfIndex(sorted, k) + [p]
    ensures p.index != k ==> OfIndex(InsertByIndex(p, sorted), k) == OfIndex(sorted, k)
    decreases |sorted|
  {
    if |sorted| == 0 {
    } else if p.index < sorted[0].index {
      assert ([p] + sorted)[1..] == sorted;
      if p.index == k {
        NoneOfIndexAbove(sorted, k);
      }
    } else {
      InsertOfIndex(p, sorted[1..], k);
      assert ([sorted[0]] + InsertByIndex(p, sorted[1..]))[1..] == InsertByIndex(p, sorted[1..]);
    }
  }

  /** A list that starts above slot `k` and is sorted holds no binding of slot `k`. */
  lemma {:induction false} NoneOfIndexAbove(sorted: seq<ParamMeta>, k: nat)
    requires |sorted| > 0 && k < sorted[0].index && SortedByIndex(sorted)
    ensures OfIndex(sorted, k) == []
    decreases |sorted|
  {
    if |sorted| > 1 {
      NoneOfIndexAbove(sorted[1..], k);
    }
  }

  lemma {:induction false} OfIndexSnoc(ps: seq<ParamMeta>, p: ParamMeta, k: nat)
    ensures p.index == k ==> OfIndex(ps + [p], k) == OfIndex(ps, k) + [p]
    ensures p.index != k ==> OfIndex(ps + [p], k) == OfIndex(ps, k)
    decreases |ps|
  {
    if |ps| > 0 {
      assert (ps + [p])[1..] == ps[1..] + [p];
      OfIndexSnoc(ps[1..], p, k);
    }
  }

  /** The sort orders the bindings by slot, keeps exactly the same bindings, and keeps the
      bindings of each slot in their original order. */
  lemma {:induction false} SortByIndexCorrect(ps: seq<ParamMeta>)
    ensures SortedByIndex(SortByIndex(ps))
    ensures multiset(SortByIndex(ps)) == multiset(ps)
    ensures forall k :: OfIndex(SortByIndex(ps), k) == OfIndex(ps, k)
    decreases |ps|
  {
    if |ps| > 0 {
      var init := ps[..|ps| - 1];
      var last := ps[|ps| - 1];
      SortByIndexCorrect(init);
      InsertSorted(last, SortByIndex(init));
      InsertPermutes(last, SortByIndex(init));
      assert ps == init + [last];
      forall k ensures OfIndex(SortByIndex(ps), k) == OfIndex(ps, k) {
        InsertOfIndex(last, SortByIndex(init), k);
        OfIndexSnoc(init, last, k);
      }
    }
  }

  /** `req.query[name]` and friends: a missing field reads as `undefined`. */
  function Field(fields: map<string, Json>, name: string): Json {
    if name in fields then fields[name] else JUndefined
  }

  function TextField(fields: map<string, string>, name: string): Json {
    if name in fields then JStr(fields[name]) else JUndefined
  }

  /** `req.params` or `req.headers` as a whole object. */
  function TextObject(fields: map<string, string>): Json {
    JObj(map k | k in fields :: JStr(fields[k]))
  }

  /** The value the `switch (param.type)` writes into `args[param.index]`; `None` when it writes
      nothing (an unnamed `header` binding). */
  function ArgFor(p: ParamMeta, req: HttpRequest, user: Option<Json>): (a: Option<Arg>)
    ensures a.None? <==> p.kind == HeaderParam && !Truthy(p.name)
  {
    match p.kind
    case RequestParam => Some(RequestArg(user))
    case ResponseParam => Some(ResponseArg)
    case QueryParam => Some(Value(if Truthy(p.name) then Field(req.query, p.name.value) else JObj(req.query)))
    case BodyParam => Some(Value(req.body))
    case FormParam => Some(Value(req.body))
    case PathParam => Some(Value(if Truthy(p.name) then TextField(req.params, p.name.value) else TextObject(req.params)))
    case HeadersParam => Some(Value(if Truthy(p.name) then TextField(req.headers, ToLower(p.name.value)) else TextObject(req.headers)))
    case HeaderParam => if Truthy(p.name) then Some(Value(TextField(req.headers, ToLower(p.name.value)))) else None
  }

  /** `args[k] = v` on a JavaScript array: slots between the old end and `k` stay holes. */
  function Place(args: seq<Arg>, k: nat, v: Arg): (r: seq<Arg>)
    ensures |r| == if k < |args| then |args| else k + 1
    ensures r[k] == v
    ensures forall i :: 0 <= i < |r| && i != k ==> r[i] == if i < |args| then args[i] else Hole
  {
    if k < |args| then args[k := v] else args + seq(k - |args|, _ => Hole) + [v]
  }

  /** The argument array after the binding loop has run over `ps`, starting from `args`. */
  function Bind(args: seq<Arg>, ps: seq<ParamMeta>, req: HttpRequest, user: Option<Json>): seq<Arg>
    decreases |ps|
  {
    if |ps| == 0 then args
    else if ArgFor(ps[0], req, user).None? then Bind(args, ps[1..], req, user)
    else Bind(Place(args, ps[0].index, ArgFor(ps[0], req, user).value), ps[1..], req, user)
  }

  /** What the last writing binding in `ps` puts in its slot. */
  function LastWrite(ps: seq<ParamMeta>, req: HttpRequest, user: Option<Json>): Option<Arg>
    decreases |ps|
  {
    if |ps| == 0 then None
    else if LastWrite(ps[1..], req, user).Some? then LastWrite(ps[1..], req, user)
    else ArgFor(ps[0], req, user)
  }

  /** One past the highest slot any binding of `ps` writes (0 when none does). */
  function Reach(ps: seq<ParamMeta>, req: HttpRequest, user: Option<Json>): nat
    decreases |ps|
  {
    if |ps| == 0 then 0
    else if ArgFor(ps[0], req, user).Some? && ps[0].index + 1 > Reach(ps[1..], req, user) then ps[0].index + 1
    else Reach(ps[1..], req, user)
  }

  /** Slot by slot: a slot holds the value of the last binding that writes it, or what it held
      before, or a hole; the array grows just far enough for the highest written slot. */
  lemma {:induction false} BindSlots(args: seq<Arg>, ps: seq<ParamMeta>, req: HttpRequest, user: Option<Json>, k: nat)
    ensures |Bind(args, ps, req, user)| == if |args| < Reach(ps, req, user) then Reach(ps, req, user) else |args|
    ensures k < |Bind(args, ps, req, user)| && LastWrite(OfIndex(ps, k), req, user).Some? ==>
              Bind(args, ps, req, user)[k] == LastWrite(OfIndex(ps, k), req, user).value
    ensures k < |Bind(args, ps, req, user)| && LastWrite(OfIndex(ps, k), req, user).None? ==>
              Bind(args, ps, req, user)[k] == if k < |args| then args[k] else Hole
    decreases |ps|
  {
    if |ps| > 0 {
      var a := ArgFor(ps[0], req, user);
      var next := if a.None? then args else Place(args, ps[0].index, a.value);
      BindSlots(next, ps[1..], req, user, k);
      if ps[0].index == k {
        assert OfIndex(ps, k) == [ps[0]] + OfIndex(ps[1..], k);
        assert ([ps[0]] + OfIndex(ps[1..], k))[1..] == OfIndex(ps[1..], k);
      }
    }
  }

  /** The `for (const param of paramMetadata)` loop. */
  method FillArgs(sorted: seq<ParamMeta>, req: HttpRequest, user: Option<Json>) returns (args: seq<Arg>)
    ensures args == Bind([], sorted, req, user)
  {
    args := [];
    var i := 0;
    while i < |sorted|
      invariant 0 <= i <= |sorted|
      invariant Bind(args, sorted[i..], req, user) == Bind([], sorted, req, user)
    {
      assert sorted[i..][1..] == sorted[i + 1..];
      var a := ArgFor(sorted[i], req, user);
      if a.Some? {
        args := Place(args, sorted[i].index, a.value);
      }
      i := i + 1;
    }
  }

  /** What a bound handler sends once the method has run: its result as JSON unless it already
      answered or returned `undefined`; a thrown error goes to the error stage. */
  function Finish(call: Result<Invocation, Thrown>): (o: Outcome)
    ensures call.Err? ==> o == Envelope(ErrorStage(call.error))
    ensures call.Ok? ==> (o == JsonBody(call.value.result) <==> !call.value.sentDirectly && call.value.result != JUndefined)
    ensures call.Ok? && o != JsonBody(call.value.result) ==> o == NoBody
  {
    match call
    case Err(e) => Envelope(ErrorStage(e))
    case Ok(Invocation(result, sent)) => if !sent && result != JUndefined then JsonBody(result) else NoBody
  }

  /** The bound handler of `controller.methodName`. The gate runs first and a rejection goes
      straight to the error stage; otherwise the stored bindings are sorted in place (the store
      keeps the sorted list), the arguments are bound, and `invoke` runs the method on them. */
  method HandleRoute(permits: map<string, bool>, meta: Store, controller: ScannedService, methodName: string,
                     req: HttpRequest, verify: string -> Option<Json>, invoke: seq<Arg> -> Result<Invocation, Thrown>)
    returns (out: Outcome)
    modifies meta
    ensures AuthGate(permits, controller.name, methodName, req, verify).Reject? ==>
              out == Envelope(ErrorStage(GateError(AuthGate(permits, controller.name, methodName, req, verify).item)))
              && meta.State() == old(meta.State())
    ensures AuthGate(permits, controller.name, methodName, req, verify).Proceed? && controller.instance.Instance?
            && (controller.instance.cls, methodName) in old(meta.params) ==>
              var stored := old(meta.params)[(controller.instance.cls, methodName)];
              && meta.State() == old(meta.State()).(params := old(meta.params)[(controller.instance.cls, methodName) := SortByIndex(stored)])
              && out == Finish(invoke(Bind([], SortByIndex(stored), req, AuthGate(permits, controller.name, methodName, req, verify).user)))
    ensures AuthGate(permits, controller.name, methodName, req, verify).Proceed?
            && (!controller.instance.Instance? || (controller.instance.cls, methodName) !in old(meta.params)) ==>
              meta.State() == old(meta.State()) && out == Finish(invoke([]))
  {
    var gate := AuthGate(permits, controller.name, methodName, req, verify);
    if gate.Reject? {
      return Envelope(ErrorStage(GateError(gate.item)));
    }
    var bindings: seq<ParamMeta> := [];
    if controller.instance.Instance? && (controller.instance.cls, methodName) in meta.params {
      bindings := SortByIndex(meta.params[(controller.instance.cls, methodName)]);
      meta.params := meta.params[(controller.instance.cls, methodName) := bindings];
    }
    var args := FillArgs(bindings, req, gate.user);
    out := Finish(invoke(args));
  }

  // ---------------------------------------------------------------------------
  // Route mounting

  /** The handler a mounted route runs. */
  datatype Handler = RpcEndpoint | HealthEndpoint | Bound(controller: ScannedService, methodName: string)

  datatype Mount = Mount(verb: Verb, path: string, handler: Handler)

  /** `controllerMetadata?.basePath || ''` for the class of a controller's instance. */
  function BasePathOf(m: MetaState, instance: Obj): string {
    if instance.Instance? && instance.cls in m.controller then m.controller[instance.cls].basePath else ""
  }

  /** The routes one controller mounts: each route entry with a supported verb, in order. */
  function ControllerMounts(basePath: string, controller: ScannedService, routes: seq<MethodInfo>): seq<Mount>
    decreases |routes|
  {
    if |routes| == 0 then []
    else if routes[0].RouteEntry? && RouteVerb(routes[0].route.httpMethod).Some? then
      [Mount(RouteVerb(routes[0].route.httpMethod).value, NormalizePath([basePath, routes[0].route.path]),
             Bound(controller, routes[0].route.name))]
      + ControllerMounts(basePath, controller, routes[1..])
    else ControllerMounts(basePath, controller, routes[1..])
  }

  /** The routes `buildControllerRoutes` mounts for `controllers`, controller after controller. */
  function AllControllerMounts(m: MetaState, controllers: seq<ScannedService>): seq<Mount>
    decreases |controllers|
  {
    if |controllers| == 0 then []
    else ControllerMounts(BasePathOf(m, controllers[0].instance), controllers[0], controllers[0].methods)
         + AllControllerMounts(m, controllers[1..])
  }

  /** A controller mounts exactly its routes whose verb is one of the five, each under the
      normalised base path + route path and bound to the route's method. */
  lemma {:induction false} ControllerMountsExactly(basePath: string, controller: ScannedService, routes: seq<MethodInfo>, mount: Mount)
    ensures mount in ControllerMounts(basePath, controller, routes) <==>
              exists r :: RouteEntry(r) in routes && RouteVerb(r.httpMethod) == Some(mount.verb)
                          && mount == Mount(mount.verb, NormalizePath([basePath, r.path]), Bound(controller, r.name))
    decreases |routes|
  {
    if |routes| > 0 {
      ControllerMountsExactly(basePath, controller, routes[1..], mount);
      assert forall x :: x in routes <==> x == routes[0] || x in routes[1..];
    }
  }

  lemma MountsAssociate(a: seq<Mount>, b: seq<Mount>, c: seq<Mount>)
    ensures (a + b) + c == a + (b + c)
  {
  }

  // ---------------------------------------------------------------------------
  // /rpc

  /** The body of a `POST /rpc`; `args` is whatever JSON the caller sent. */
  datatype RpcRequest = RpcRequest(service: Option<string>, methodName: Option<string>, args: Json, requestId: Option<string>)

  /** The message of the `TypeError` thrown when a call spreads a value that is not iterable
      (the wording of the V8 engine). */
  const NOT_ITERABLE := "Spread syntax requires ...iterable[Symbol.iterator] to be a function"

  /** `...rpcRequest.args` in a call: an array spreads to its items, a string to its characters,
      and any other JSON value (absent, null, a boolean, a number, an object) throws. */
  function SpreadArgs(args: Json): (r: Result<seq<Json>, string>)
    ensures r.Ok? <==> args.JArr? || args.JStr?
    ensures args.JArr? ==> r == Ok(args.items)
    ensures args.JStr? ==> r.Ok? && |r.value| == |args.s| && forall i :: 0 <= i < |args.s| ==> r.value[i] == JStr([args.s[i]])
    ensures r.Err? ==> r.error == NOT_ITERABLE
  {
    match args
    case JArr(items) => Ok(items)
    case JStr(s) => Ok(seq(|s|, i requires 0 <= i < |s| => JStr([s[i]])))
    case _ => Err(NOT_ITERABLE)
  }

  datatype RpcError = RpcError(message: string, code: string)

  /** `RpcResponse`; `data` is absent (undefined) on failure and `error` on success. */
  datatype RpcResponse = RpcResponse(success: bool, data: Json, error: Option<RpcError>,
                                     requestId: string, timestamp: int, duration: int)

  datatype RpcReply = RpcReply(status: nat, body: RpcResponse)

  /** The body of the `try` block: the token check, the service and method lookups, and the call.
      `invoke(instance, name, args)` runs a method of a service instance. */
  function RpcOutcome(catalogue: OMap<string, ScannedService>, call: RpcRequest,
                      expectedToken: Option<string>, providedToken: Option<string>,
                      invoke: (Obj, string, seq<Json>) -> Result<Json, string>): (r: Result<Json, string>)
    requires Keyed(catalogue)
  {
    if Truthy(expectedToken) && (!Truthy(providedToken) || providedToken.value != expectedToken.value) then
      Err("Unauthorized access")
    else
      var service := if call.service.Some? then GetService(catalogue, call.service.value) else None;
      if service.None? || service.value.kind != RpcKind then
        Err("RPC Service not found: " + Render(call.service))
      else
        var found := if call.methodName.Some? then FindMethod(service.value.methods, call.methodName.value) else None;
        if found.None? then
          Err("Method not found: " + Render(call.service) + "." + Render(call.methodName))
        else
          var spread := SpreadArgs(call.args);
          if spread.Err? then Err(spread.error)
          else invoke(service.value.instance, Render(found.value.OriginalName()), spread.value)
  }

  /** `handleRpcCall`: 200 with `success: true` and the result, or 500 with `success: false` and
      code 'INTERNAL_ERROR'; the request id is the caller's when it sent one. */
  function HandleRpcCall(catalogue: OMap<string, ScannedService>, call: RpcRequest,
                         expectedToken: Option<string>, providedToken: Option<string>,
                         generatedId: string, start: int, now: int,
                         invoke: (Obj, string, seq<Json>) -> Result<Json, string>): (reply: RpcReply)
    requires Keyed(catalogue)
    ensures reply.body.requestId == OrElse(call.requestId, generatedId)
    ensures reply.body.timestamp == now && reply.body.duration == now - start
    ensures reply.status == 200 <==> reply.body.success
    ensures reply.status == 200 || reply.status == 500
    ensures reply.body.success ==>
              RpcOutcome(catalogue, call, expectedToken, providedToken, invoke) == Ok(reply.body.data)
              && reply.body.error.None?
    ensures !reply.body.success ==>
              RpcOutcome(catalogue, call, expectedToken, providedToken, invoke).Err?
              && reply.body.error == Some(RpcError(RpcOutcome(catalogue, call, expectedToken, providedToken, invoke).error, "INTERNAL_ERROR"))
  {
    var id := OrElse(call.requestId, generatedId);
    match RpcOutcome(catalogue, call, expectedToken, providedToken, invoke)
    case Ok(data) => RpcReply(200, RpcResponse(true, data, None, id, now, now - start))
    case Err(message) => RpcReply(500, RpcResponse(false, JUndefined, Some(RpcError(message, "INTERNAL_ERROR")), id, now, now - start))
  }

  /** With `RPC_TOKEN` set, a call without the matching `x-rpc-token` never reaches a service. */
  lemma RpcTokenGuards(catalogue: OMap<string, ScannedService>, call: RpcRequest, expected: string, provided: Option<string>,
                       invoke: (Obj, string, seq<Json>) -> Result<Json, string>)
    requires Keyed(catalogue)
    requires expected != "" && provided != Some(expected)
    ensures RpcOutcome(catalogue, call, Some(expected), provided, invoke) == Err("Unauthorized access")
  {
  }

  /** A call passes the lookups exactly when the catalogue has an rpc service under the name and
      one of its methods answers to the method name; the method then runs by its original name. */
  lemma RpcDispatchExactly(catalogue: OMap<string, ScannedService>, service: string, methodName: string, args: seq<Json>,
                           requestId: Option<string>, invoke: (Obj, string, seq<Json>) -> Result<Json, string>)
    requires Keyed(catalogue)
    ensures var call := RpcRequest(Some(service), Some(methodName), JArr(args), requestId);
            var r := RpcOutcome(catalogue, call, None, None, invoke);
            && (service !in catalogue.table || catalogue.table[service].kind != RpcKind ==>
                  r == Err("RPC Service not found: " + service))
            && (service in catalogue.table && catalogue.table[service].kind == RpcKind
                && GetMethod(catalogue, service, methodName).None? ==>
                  r == Err("Method not found: " + service + "." + methodName))
            && (service in catalogue.table && catalogue.table[service].kind == RpcKind
                && GetMethod(catalogue, service, methodName).Some? ==>
                  r == invoke(catalogue.table[service].instance, Render(GetMethod(catalogue, service, methodName).value.OriginalName()), args))
  {
  }

  /** Once the service and method are found, arguments that are not an array (or a string)
      make the call throw before the method runs, and the reply is a 500 `INTERNAL_ERROR`. */
  lemma RpcArgsMustSpread(catalogue: OMap<string, ScannedService>, call: RpcRequest,
                          generatedId: string, start: int, now: int,
                          invoke: (Obj, string, seq<Json>) -> Result<Json, string>)
    requires Keyed(catalogue)
    requires call.service.Some? && call.service.value in catalogue.table && catalogue.table[call.service.value].kind == RpcKind
    requires call.methodName.Some? && GetMethod(catalogue, call.service.value, call.methodName.value).Some?
    requires !call.args.JArr? && !call.args.JStr?
    ensures var reply := HandleRpcCall(catalogue, call, None, None, generatedId, start, now, invoke);
            && reply.status == 500 && !reply.body.success
            && reply.body.error == Some(RpcError(NOT_ITERABLE, "INTERNAL_ERROR"))
  {
  }

  // ---------------------------------------------------------------------------
  // handleServiceDiscovery

  datatype MethodSummary = MethodSummary(name: string, originalName: Option<string>)
  datatype ServiceSummary = ServiceSummary(name: string, methods: seq<MethodSummary>)
  datatype Discovery = Discovery(services: seq<ServiceSummary>, totalServices: nat, totalMethods: nat)

  function MethodSummaries(methods: seq<MethodInfo>): (r: seq<MethodSummary>)
    ensures |r| == |methods|
    ensures forall i :: 0 <= i < |methods| ==> r[i] == MethodSummary(methods[i].Name(), methods[i].OriginalName())
  {
    seq(|methods|, i requires 0 <= i < |methods| => MethodSummary(methods[i].Name(), methods[i].OriginalName()))
  }

  function Summaries(services: seq<ScannedService>): (r: seq<ServiceSummary>)
    ensures |r| == |services|
    ensures forall i :: 0 <= i < |services| ==> r[i] == ServiceSummary(services[i].name, MethodSummaries(services[i].methods))
  {
    seq(|services|, i requires 0 <= i < |services| => ServiceSummary(services[i].name, MethodSummaries(services[i].methods)))
  }

  /** `services.reduce((sum, s) => sum + s.methods.length, 0)`. */
  function SumMethods(services: seq<ServiceSummary>): nat
    decreases |services|
  {
    if |services| == 0 then 0 else |services[0].methods| + SumMethods(services[1..])
  }

  /** The method count of the catalogued services themselves. */
  function CatalogueMethods(services: seq<ScannedService>): nat
    decreases |services|
  {
    if |services| == 0 then 0 else |services[0].methods| + CatalogueMethods(services[1..])
  }

  /** The discovery summary over the rpc services of a catalogue. */
  function ServiceDiscovery(catalogue: OMap<string, ScannedService>): (d: Discovery)
    requires catalogue.Valid()
  {
    var services := Summaries(GetRpcServices(catalogue));
    Discovery(services, |services|, SumMethods(services))
  }

  lemma {:induction false} SummariesCount(services: seq<ScannedService>)
    ensures SumMethods(Summaries(services)) == CatalogueMethods(services)
    decreases |services|
  {
    if |services| > 0 {
      SummariesCount(services[1..]);
      assert Summaries(services)[1..] == Summaries(services[1..]);
    }
  }

  /** The summary lists every rpc service once, in catalogue order, and its totals are the number
      of rpc services and the sum of their method counts. */
  lemma DiscoveryTotals(catalogue: OMap<string, ScannedService>)
    requires catalogue.Valid()
    ensures ServiceDiscovery(catalogue).totalServices == |GetRpcServices(catalogue)|
    ensures ServiceDiscovery(catalogue).totalMethods == CatalogueMethods(GetRpcServices(catalogue))
    ensures forall i :: 0 <= i < |GetRpcServices(catalogue)| ==>
              ServiceDiscovery(catalogue).services[i].name == GetRpcServices(catalogue)[i].name
  {
    SummariesCount(GetRpcServices(catalogue));
  }

  // ---------------------------------------------------------------------------
  // The transport object

  class Transport {
    const scanner: PackagesScanner.ServiceScanner
    /** The routes mounted on the Express application, in mounting order. */
    var mounts: seq<Mount>

    constructor ()
      ensures fresh(scanner) && scanner.Valid() && scanner.services == Empty() && mounts == []
    {
      scanner := new PackagesScanner.ServiceScanner();
      mounts := [];
    }

    /** The routes of one controller, mounted under its base path in route order. */
    method MountController(m: MetaState, controller: ScannedService)
      modifies this
      ensures mounts == old(mounts) + ControllerMounts(BasePathOf(m, controller.instance), controller, controller.methods)
    {
      var basePath := BasePathOf(m, controller.instance);
      var routes := controller.methods;
      var r := 0;
      while r < |routes|
        invariant 0 <= r <= |routes|
        invariant mounts + ControllerMounts(basePath, controller, routes[r..]) == old(mounts) + ControllerMounts(basePath, controller, routes)
      {
        assert routes[r..][1..] == routes[r + 1..];
        if routes[r].RouteEntry? {
          var verb := RouteVerb(routes[r].route.httpMethod);
          if verb.Some? {
            mounts := mounts + [Mount(verb.value, NormalizePath([basePath, routes[r].route.path]),
                                      Bound(controller, routes[r].route.name))];
          }
        }
        r := r + 1;
      }
    }

    /** `buildControllerRoutes()`: for every catalogued controller and every route of it whose verb
        is one of the five, a handler bound to the route's method is mounted. */
    method BuildControllerRoutes(m: MetaState)
      requires scanner.Valid()
      modifies this
      ensures mounts == old(mounts) + AllControllerMounts(m, GetControllers(scanner.services))
    {
      var controllers := GetControllers(scanner.services);
      var c := 0;
      while c < |controllers|
        invariant 0 <= c <= |controllers|
        invariant mounts + AllControllerMounts(m, controllers[c..]) == old(mounts) + AllControllerMounts(m, controllers)
      {
        var controller := controllers[c];
        assert controllers[c..][0] == controller && controllers[c..][1..] == controllers[c + 1..];
        ghost var rest := AllControllerMounts(m, controllers[c + 1..]);
        ghost var here := ControllerMounts(BasePathOf(m, controller.instance), controller, controller.methods);
        assert AllControllerMounts(m, controllers[c..]) == here + rest;
        ghost var before := mounts;
        MountController(m, controller);
        MountsAssociate(before, here, rest);
        c := c + 1;
      }
    }

    /** `setupRoutes()`: `/rpc`, `/health`, then the controller routes. */
    method SetupRoutes(m: MetaState)
      requires scanner.Valid()
      modifies this
      ensures mounts == old(mounts) + [Mount(POST, "/rpc", RpcEndpoint), Mount(GET, "/health", HealthEndpoint)]
                        + AllControllerMounts(m, GetControllers(scanner.services))
    {
      mounts := mounts + [Mount(POST, "/rpc", RpcEndpoint), Mount(GET, "/health", HealthEndpoint)];
      BuildControllerRoutes(m);
    }

    /** `scanServices(directories)`: scan, then mount the routes; a failed scan mounts nothing. */
    method ScanServices(c: DI.DIContainer, meta: Store, dirs: seq<SourceDir>, ghost rank: map<Runtime.Token, nat>)
      returns (err: Option<string>)
      requires scanner.Valid() && c.Valid() && c.Ranked(rank, meta)
      modifies this, scanner, c
      ensures scanner.Valid() && c.Valid() && c.services == old(c.services)
      ensures err.Some? ==> mounts == old(mounts)
      ensures err.None? ==>
                mounts == old(mounts) + [Mount(POST, "/rpc", RpcEndpoint), Mount(GET, "/health", HealthEndpoint)]
                          + AllControllerMounts(meta.State(), GetControllers(scanner.services))
    {
      var found;
      found, err := scanner.ScanServices(c, meta, dirs, rank);
      if err.Some? {
        return;
      }
      SetupRoutes(meta.State());
    }
  }
}
