# express-micro communication fabric, in Dafny

This project models the part of express-micro that lets its services find and call one
another:

- the **DI container** (`DIContainer`) and the decorators that fill it and the reflection
  metadata store;
- the two **service scanners**, which load the modules of a service, classify each exported
  class (rpc service, controller, plain service) and catalogue a resolved instance of it;
- **HttpTransport**, which:
  - mounts every controller route under a normalised path;
  - puts the permit-all / bearer-token gate in front of each handler;
  - binds handler arguments from the request;
  - answers `POST /rpc` with a call envelope;
  - renders every error through one global error stage built on **ResponseUtil**;
- the RPC client side:
  - `ServiceProxy`, one memoised proxy object per remote service;
  - the packages/rpc `ServiceRegistry`, which files discovered services in the container;
  - the rpc/ `ServiceRegistry`, which files one load-balanced proxy per route module;
- the **registry center**: `RegistryService` (instances by id, heartbeats, expiry) and its
  HTTP routes;
- the two **gateway routers**. Each validates a route table, mounts one proxy per route
  prefix, and answers proxy errors with 502/503/504.

JavaScript `Map`s are ordered maps (`OrderedMaps.OMap`): a `set` on an existing key keeps
its position and a new key goes last. The reflection metadata is a class (`Metadata.Store`)
of maps keyed by class. Container tokens are `Named(string)` or `ClassToken(ClassRef)`.
Objects the container builds carry a serial, so a singleton is the same value each time
and a transient one is new each time.

Parameters stand in for everything the code reads from outside:

- the clock;
- environment variables;
- generated request ids;
- the JWT verifier;
- the remote method being called;
- the transport's HTTP `call`.

The code's own shape is kept. Objects whose fields change are classes whose methods state
the whole new state. Loops are `while` loops proved against specification functions.
Lemmas then state what the source promises about those functions.

## Model

| member | source | states |
|---|---|---|
| ResponseUtil.Success | packages/rpc/src/utils/ResponseUtil.ts:5-11 | code "0"; message defaults to "Success"; falsy data (undefined, false, 0, "") becomes `{}` |
| ResponseUtil.CommonErrorResponse | packages/rpc/src/utils/ResponseUtil.ts:13-19 | code and message as given; falsy data becomes `{}` |
| ResponseUtil.ErrorResponse | packages/rpc/src/utils/ResponseUtil.ts:21-23 | an error item renders as `commonError(item.code, item.msg, data)` |
| ResponseUtil.SuccessFalsyData | packages/rpc/src/utils/ResponseUtil.ts:9 | `success(false)`, `success(0)` and `success()` all carry `{}` as data |
| ResponseUtil.ErrorNeverSuccess | packages/rpc/src/utils/ResponseUtil.ts:21-23 | no item of the error enumeration renders with the success code |
| Errors.CommonErrorCodes | packages/rpc/src/utils/CommonErrorEnum.ts:7-42 | ten items whose codes run "1000" to "1009" in order, pairwise distinct |
| DI.DependencyToken | packages/rpc/src/di/Container.ts:118-125 | a constructor slot resolves its injected token when one is recorded, else its design type, else nothing |
| DI.DIContainer.constructor | packages/rpc/src/di/Container.ts:27-32 | all five tables start empty |
| DI.DIContainer.Register | packages/rpc/src/di/Container.ts:40-49 | files the registration, with the class's design-time parameter types, under the token; a re-registration keeps its place; nothing else changes |
| DI.DIContainer.RegisterInstance | packages/rpc/src/di/Container.ts:56-58 | the instance cache maps the token to the object; nothing else changes, so `has` answers as before |
| DI.DIContainer.Resolve | packages/rpc/src/di/Container.ts:67-107 | a cached singleton first, then the request's cache, then "not registered" (with the registered names), else a new instance of the registered class whose i-th argument is what slot i's token resolved to for the same request id; the first slot with no token fails with "Cannot resolve dependency i" for the class unless an earlier slot's resolution failed first; what it yields is what the caches now hold for the token as its scope dictates; caches only grow, singletons only with singleton registrations and request caches only with request-scoped ones; registrations never change |
| DI.DIContainer.CacheByScope | packages/rpc/src/di/Container.ts:91-104 | singleton: instance cache; request with an id: that request's cache; transient, or request without an id: no cache |
| DI.DIContainer.CreateInstance | packages/rpc/src/di/Container.ts:116-130 | success is a new object of the registered class with one argument per constructor slot, each slot having a token (injected name, else design type) whose resolution for the same request id is that argument; a failure stops at a slot all of whose predecessors have tokens, with "Cannot resolve dependency i" for the class when that slot has none; the caches only grow, and only with dependencies ranked below the token |
| DI.DIContainer.BeginRequestScope | packages/rpc/src/di/Container.ts:136-138 | the request gets a fresh empty cache |
| DI.DIContainer.EndRequestScope | packages/rpc/src/di/Container.ts:144-146 | the request's cache is dropped; the others stay |
| DI.DIContainer.GetRegisteredServices | packages/rpc/src/di/Container.ts:152-156 | the display names of the registrations, in registration order |
| DI.DIContainer.Has | packages/rpc/src/di/Container.ts:163-165 | true exactly for the registered tokens, the ones `getRegisteredServices` lists; an instance placed with `registerInstance` does not count |
| DI.DIContainer.Reset | packages/rpc/src/di/Container.ts:170-174 | registrations and both caches are emptied; the class and permit-all tables survive |
| DI.DIContainer.Remove | packages/rpc/src/di/Container.ts:180-183 | the registration and the cached singleton are dropped; request caches keep theirs |
| DI.DIContainer.RegisterAllClass | packages/rpc/src/di/Container.ts:185-190 | the first class recorded under a name keeps it |
| DI.DIContainer.RegisterPermitAll | packages/rpc/src/di/Container.ts:192-197 | refused with "routesPermit … is already registered" exactly when the token is a recorded class name; otherwise recorded as permitted |
| DI.DIContainer.CheckRoutesPermitAll | packages/rpc/src/di/Container.ts:199-201 | true for a recorded token, undefined otherwise |
| Decorators.StripImpl | packages/rpc/src/decorator/Decorators.ts:64-67 | removes one trailing "Impl" and nothing else |
| Decorators.StripImplOnce | packages/rpc/src/decorator/Decorators.ts:64-67 | `XImpl` becomes `X`, even when `X` itself ends in "Impl" |
| Decorators.PayServiceImplName | packages/rpc/src/decorator/Decorators.ts:64-67 | `PayServiceImpl` registers as `PayService`; an explicit `EmailServiceImpl` as `EmailService` |
| Decorators.RpcServiceName | packages/rpc/src/decorator/Decorators.ts:12-13 | `MODULE_NAME*name`, where the name is the explicit name or the class name and an unset module prints "undefined" |
| Decorators.ServiceName | packages/rpc/src/decorator/Decorators.ts:64-67 | the explicit or class name, less one "Impl" |
| Decorators.PermitToken | packages/rpc/src/decorator/Decorators.ts:112-115 | `Class*method`, followed by `*VERB` when a verb is given |
| Decorators.RpcService | packages/rpc/src/decorator/Decorators.ts:10-25 | registers under the prefixed name with the scope (default singleton); records the name, the version (default "1.0.0") and the scope |
| Decorators.Controller | packages/rpc/src/decorator/Decorators.ts:32-51 | registers under the explicit or class name; records the base path (default "") |
| Decorators.Service | packages/rpc/src/decorator/Decorators.ts:58-78 | registers under `ServiceName`; records name, version and scope |
| Decorators.Component | packages/rpc/src/decorator/Decorators.ts:85-102 | registers under the explicit or class name; records name, version and scope |
| Decorators.PermitAll | packages/rpc/src/decorator/Decorators.ts:110-119 | files `PermitToken` with the container; fails exactly when the token is a recorded class name |
| Decorators.HttpMethod | packages/rpc/src/decorator/Decorators.ts:127-142 | appends one route to the class's list; other classes' lists are unchanged |
| Decorators.Shortcut | packages/rpc/src/decorator/Decorators.ts:212-250 | `@GET`…`@PATCH` append a route with their verb; the path defaults to "" |
| Decorators.RpcMethod | packages/rpc/src/decorator/Decorators.ts:149-164 | appends `{name: metadata.name or key, originalName: key}`; other classes unchanged |
| Decorators.Padded | packages/rpc/src/decorator/Decorators.ts:177-179 | the list grown with undefined until the index is valid, its old entries kept |
| Decorators.PadThrough | packages/rpc/src/decorator/Decorators.ts:198-200 | the padding loop computes `Padded` |
| Decorators.InjectionToken | packages/rpc/src/decorator/Decorators.ts:182-193 | the explicit token, else the design type's name, else `Class_param_i` |
| Decorators.Inject | packages/rpc/src/decorator/Decorators.ts:171-205 | slot `i` of the injection list holds the token; the other slots keep their values; the lists are padded |
| Decorators.InjectedTokenResolved | packages/rpc/src/decorator/Decorators.ts:183-185 | a non-empty token recorded by `@Inject` is the token the container resolves for that slot |
| ParameterDecorators.BindingOf | packages/rpc/src/decorator/ParameterDecorators.ts:32-174 | the record each decorator builds; `@Query` defaults `required` to false and `@Param` to true |
| ParameterDecorators.Decorate | packages/rpc/src/decorator/ParameterDecorators.ts:39-41 | appends the record to that method's list; every other (class, method) list is unchanged |
| ScanCatalogue.Classify | packages/rpc/src/scanner/ServiceScanner.ts:116-134 | rpc metadata first, then controller metadata, then a class-token registration; "component" is never produced |
| ScanCatalogue.LevelMethods | packages/rpc/src/scanner/ServiceScanner.ts:191-199 | exactly the function-valued own properties other than `constructor` |
| ScanCatalogue.PublicMethodsExactly | packages/rpc/src/scanner/ServiceScanner.ts:186-204 | a name is listed if and only if some prototype level defines it as a function other than `constructor` |
| ScanCatalogue.PublicMethodsPerLevel | packages/rpc/src/scanner/ServiceScanner.ts:190-201 | the list is the levels' lists in order, so an overridden method appears once per level |
| ScanCatalogue.ExtractPublicMethods | packages/rpc/src/scanner/ServiceScanner.ts:186-204 | the prototype walk computes `PublicMethods` |
| ScanCatalogue.FindMethod | packages/rpc/src/scanner/ServiceScanner.ts:249 | the first method whose name or original name matches; none when no method matches |
| ScanCatalogue.OfKind | packages/rpc/src/scanner/ServiceScanner.ts:227-237 | exactly the entries of the kind, and no more entries than the catalogue has |
| ScanCatalogue.OfKindAppend | packages/rpc/src/scanner/ServiceScanner.ts:227-237 | filtering distributes over concatenation and keeps a single entry exactly when it has the kind, so the kept entries keep their catalogue order |
| ScanCatalogue.SetAll | packages/rpc/src/scanner/ServiceScanner.ts:98 | setting each entry under its name keeps every entry filed under its own name |
| ScanCatalogue.SetAllKeepsOthers | packages/rpc/src/scanner/ServiceScanner.ts:98 | a name no scanned entry carries keeps its old entry |
| ScanCatalogue.SetAllLastWins | packages/rpc/src/scanner/ServiceScanner.ts:98 | the last entry scanned under a name is the one catalogued |
| ScanCatalogue.GetService | packages/rpc/src/scanner/ServiceScanner.ts:211-213 | the entry filed under the name, which carries that name; undefined otherwise |
| ScanCatalogue.GetAllServices | packages/rpc/src/scanner/ServiceScanner.ts:219-221 | one entry per name, in the order the names were first filed, and every catalogued entry |
| ScanCatalogue.GetRpcServices | packages/rpc/src/scanner/ServiceScanner.ts:227-229 | exactly the rpc entries |
| ScanCatalogue.GetControllers | packages/rpc/src/scanner/ServiceScanner.ts:235-237 | exactly the controller entries |
| ScanCatalogue.GetMethod | packages/rpc/src/scanner/ServiceScanner.ts:245-250 | undefined for an unknown service; otherwise `FindMethod` over that service's methods |
| PackagesScanner.RegisterService | packages/rpc/src/scanner/ServiceScanner.ts:143-179 | the entry is named `demo_`+rpc name, the controller name or the class name, with that kind's methods; its instance is what the container now holds for the class as its scope dictates (the cached singleton, or a fresh instance of the registered class); resolved by class, so a class registered only by name fails "not registered"; the container's caches only grow |
| PackagesScanner.ScanExport | packages/rpc/src/scanner/ServiceScanner.ts:90-101 | a non-class or unclassified export yields nothing; a classified one yields its expected entry |
| PackagesScanner.ServiceScanner.constructor | packages/rpc/src/scanner/ServiceScanner.ts:47 | the catalogue starts empty |
| PackagesScanner.ServiceScanner.ScanFile | packages/rpc/src/scanner/ServiceScanner.ts:83-109 | catalogues each entry found; without error, the entries are exactly those of the module's classified exports, in order; with an error, they stop short of them |
| PackagesScanner.ServiceScanner.ScanServices | packages/rpc/src/scanner/ServiceScanner.ts:54-76 | missing directories are skipped; without error, every file loaded and the entries are those of every file in order; with an error, a prefix of them |
| PackagesScanner.ServiceScanner.ScanFiles | packages/rpc/src/scanner/ServiceScanner.ts:69-72 | the per-directory file loop: a prefix of the files' entries, all of them when no file fails |
| RpcScanner.ExportClasses | rpc/src/scanner/ServiceScanner.ts:66-71 | the module's class map stays a valid ordered map |
| RpcScanner.ExportClassesLookup | rpc/src/scanner/ServiceScanner.ts:66-71 | a function export's name maps to its class |
| RpcScanner.ExportClassesKeeps | rpc/src/scanner/ServiceScanner.ts:66-71 | a name no function export carries keeps its lookup |
| RpcScanner.Merge | rpc/src/scanner/ServiceScanner.ts:52-54 | merging keeps the map well formed |
| RpcScanner.MergeLaterWins | rpc/src/scanner/ServiceScanner.ts:52-54 | the merged table is the old one overridden by the new, old keys keeping their place |
| RpcScanner.RecordedFirstWins | rpc/src/scanner/ServiceScanner.ts:68 | `registerAllClass` keeps the first class per name and records every new name |
| RpcScanner.Collect | rpc/src/scanner/ServiceScanner.ts:49-55 | phase one's merged map, or the first load error |
| RpcScanner.CollectFails | rpc/src/scanner/ServiceScanner.ts:72-75 | phase one fails exactly when a selected file fails to load, with the first such error |
| RpcScanner.SelectFiles | rpc/src/scanner/ServiceScanner.ts:37-48 | the glob results of the existing directories, in order |
| RpcScanner.ScanFileClass | rpc/src/scanner/ServiceScanner.ts:60-77 | a load failure is an error that records nothing; otherwise every function export is recorded and mapped |
| RpcScanner.MergeInto | rpc/src/scanner/ServiceScanner.ts:52-54 | the merge loop computes `Merge` |
| RpcScanner.CollectClasses | rpc/src/scanner/ServiceScanner.ts:49-55 | phase one computes `Collect`; the container records the classes of each file up to the first that fails to load |
| RpcScanner.RegisterService | rpc/src/scanner/ServiceScanner.ts:129-162 | the entry is named after the rpc name, the controller name or the class name; its instance is what the container now holds for that name as its scope dictates; resolved by that name, so a name never registered fails "not registered"; the container's caches only grow |
| RpcScanner.ScanClass | rpc/src/scanner/ServiceScanner.ts:82-90 | an unclassified class yields nothing; a classified one yields its expected entry |
| RpcScanner.ScanAll | rpc/src/scanner/ServiceScanner.ts:81-92 | the entries found are a prefix of the classified classes' entries, and all of them exactly when there is no error |
| RpcScanner.ServiceScanner.constructor | rpc/src/scanner/ServiceScanner.ts:27 | the catalogue starts empty |
| RpcScanner.ServiceScanner.ScanService | rpc/src/scanner/ServiceScanner.ts:79-94 | phase two over the merged map's classes in key order: catalogue and entries as `ScanAll` states |
| RpcScanner.ServiceScanner.ScanServices | rpc/src/scanner/ServiceScanner.ts:34-57 | a load failure ends the scan before phase two; otherwise phase two runs over the merged map |
| HttpTransport.NormalizePath | packages/rpc/src/transport/HttpTransport.ts:267-270 | the result starts with "/" and has no doubled slash |
| HttpTransport.CollapseShape | packages/rpc/src/transport/HttpTransport.ts:268 | collapsing leaves no doubled slash and keeps the first character |
| HttpTransport.CollapseFixes | packages/rpc/src/transport/HttpTransport.ts:268 | a path without doubled slashes is unchanged |
| HttpTransport.CollapseKeepsText | packages/rpc/src/transport/HttpTransport.ts:268 | collapsing removes slashes only |
| HttpTransport.NormalizeKeepsText | packages/rpc/src/transport/HttpTransport.ts:267-270 | every non-slash character of the joined segments survives, in order |
| HttpTransport.NormalizeIdempotent | packages/rpc/src/transport/HttpTransport.ts:267-270 | normalising a normalised path changes nothing |
| HttpTransport.NormalizeEmptyBase | packages/rpc/src/transport/HttpTransport.ts:138-144 | an empty base path with "/login" gives "/login" |
| HttpTransport.RouteVerb | packages/rpc/src/transport/HttpTransport.ts:148-167 | a route is mounted if and only if its upper-cased method is one of the five verbs |
| HttpTransport.RouteVerbIgnoresCase | packages/rpc/src/transport/HttpTransport.ts:148 | upper-casing the method first changes nothing |
| HttpTransport.ErrorStage | packages/rpc/src/transport/HttpTransport.ts:107-127 | a `CommonError` with a string code renders that code and its message; one with an item renders the item; any other error renders SYSTEM_EXCEPTION; data is always `{}` |
| HttpTransport.ItemMessageWins | packages/rpc/src/transport/HttpTransport.ts:121-123 | an item raised with a custom message still renders the item's own message and code |
| HttpTransport.PlainErrorsAreSystemExceptions | packages/rpc/src/transport/HttpTransport.ts:124-126 | any other error renders code "1000" |
| HttpTransport.SchemeIgnored | packages/rpc/src/transport/HttpTransport.ts:186 | only the word after the first space is the token; the scheme is never checked |
| HttpTransport.AuthGate | packages/rpc/src/transport/HttpTransport.ts:180-196 | exempt routes pass with no identity; otherwise no header gives 1001, no token gives 1002, a rejected token gives 1003, and an accepted one passes with its identity |
| HttpTransport.PermitAllExempts | packages/rpc/src/transport/HttpTransport.ts:180-181 | a `@PermitAll` token for the class and method, with no verb or the request's verb, exempts the route |
| HttpTransport.PermitAllMissesRenamedController | packages/rpc/src/transport/HttpTransport.ts:180 | a controller catalogued under a name other than its class name is still gated despite `@PermitAll` |
| HttpTransport.InsertPermutes | packages/rpc/src/transport/HttpTransport.ts:201 | inserting keeps every binding |
| HttpTransport.InsertSorted | packages/rpc/src/transport/HttpTransport.ts:201 | inserting keeps the list sorted by slot |
| HttpTransport.InsertOfIndex | packages/rpc/src/transport/HttpTransport.ts:201 | insertion is stable: the binding goes after those of its own slot |
| HttpTransport.SortByIndexCorrect | packages/rpc/src/transport/HttpTransport.ts:201 | the sort is sorted, a permutation, and stable within each slot |
| HttpTransport.ArgFor | packages/rpc/src/transport/HttpTransport.ts:205-246 | every binding writes its slot, except a `@Header` with no name |
| HttpTransport.Place | packages/rpc/src/transport/HttpTransport.ts:207 | `args[k] = v`: slot k set, earlier slots kept, new gaps are holes |
| HttpTransport.BindSlots | packages/rpc/src/transport/HttpTransport.ts:204-247 | each slot holds what the last binding for it wrote, or a hole; the length reaches the highest slot written |
| HttpTransport.FillArgs | packages/rpc/src/transport/HttpTransport.ts:203-247 | the binding loop computes `Bind` |
| HttpTransport.Finish | packages/rpc/src/transport/HttpTransport.ts:250-258 | a thrown error goes to the error stage; a result is sent as JSON if and only if the method sent nothing itself and the result is defined |
| HttpTransport.HandleRoute | packages/rpc/src/transport/HttpTransport.ts:178-260 | a gate rejection answers with its item through the error stage and changes nothing; otherwise the stored bindings are sorted in place and the method gets the arguments they bind, with the gate's identity |
| HttpTransport.ControllerMountsExactly | packages/rpc/src/transport/HttpTransport.ts:143-168 | a controller mounts exactly its routes with a supported verb, each at the normalised base+path, bound to its method |
| HttpTransport.HandleRpcCall | packages/rpc/src/transport/HttpTransport.ts:277-344 | 200 with success and the result, or 500 with the error message and code INTERNAL_ERROR; the caller's request id wins over the generated one |
| HttpTransport.RpcTokenGuards | packages/rpc/src/transport/HttpTransport.ts:284-290 | with `RPC_TOKEN` set, a call without the matching header fails "Unauthorized access" |
| HttpTransport.RpcDispatchExactly | packages/rpc/src/transport/HttpTransport.ts:299-310 | a call with an array of arguments reaches a method exactly when an rpc service has that name and a method matching the name, and it reaches the matched method with those arguments |
| HttpTransport.SpreadArgs | packages/rpc/src/transport/HttpTransport.ts:310 | spreading `args` succeeds exactly for an array (its items) or a string (its characters, one string each); anything else throws the not-iterable `TypeError` |
| HttpTransport.RpcArgsMustSpread | packages/rpc/src/transport/HttpTransport.ts:304-339 | once the service and method are found, arguments that are neither an array nor a string give a 500 `INTERNAL_ERROR` reply carrying the `TypeError` message |
| HttpTransport.MethodSummaries | packages/rpc/src/transport/HttpTransport.ts:354-357 | one `{name, originalName}` per method, in order |
| HttpTransport.Summaries | packages/rpc/src/transport/HttpTransport.ts:352-358 | one summary per service, in order |
| HttpTransport.SummariesCount | packages/rpc/src/transport/HttpTransport.ts:365 | the reduce counts every method of every service |
| HttpTransport.DiscoveryTotals | packages/rpc/src/transport/HttpTransport.ts:351-369 | the discovery summary lists the rpc services in catalogue order; its totals are their number and their method count |
| HttpTransport.Transport.constructor | packages/rpc/src/transport/HttpTransport.ts:40-44 | a fresh, empty scanner and no routes |
| HttpTransport.Transport.MountController | packages/rpc/src/transport/HttpTransport.ts:136-168 | appends exactly the controller's mounts, in route order |
| HttpTransport.Transport.BuildControllerRoutes | packages/rpc/src/transport/HttpTransport.ts:133-170 | appends every catalogued controller's mounts, controller after controller |
| HttpTransport.Transport.SetupRoutes | packages/rpc/src/transport/HttpTransport.ts:66-128 | `POST /rpc`, then `GET /health`, then the controller routes |
| HttpTransport.Transport.ScanServices | packages/rpc/src/transport/HttpTransport.ts:376-383 | a failed scan mounts nothing; a successful one mounts the routes of the catalogue it built |
| RpcClient.GetTrap | packages/rpc/src/client/ServiceProxy.ts:106-121 | a string key that is not on `Object.prototype` and is not `then` or `catch` becomes a remote method of the service; anything else reads the empty target |
| RpcClient.ProxyIsNotThenable | packages/rpc/src/client/ServiceProxy.ts:113-115 | `then`, `catch` and `toString` are not remote methods, so awaiting a proxy yields the proxy |
| RpcClient.CallEnvelope | packages/rpc/src/client/ServiceProxy.ts:138-147 | the envelope carries service, method, args, the request id, the time and caller "typescript-client" |
| RpcClient.FailureMessage | packages/rpc/src/client/ServiceProxy.ts:155 | never empty: the remote message or "RPC call failed" |
| RpcClient.Unwrap | packages/rpc/src/client/ServiceProxy.ts:149-163 | succeeds exactly on an answered success, with its data; a failure reply or an error response body gives its message; anything else rethrows the transport error |
| RpcClient.OutgoingHeaders | packages/rpc/src/client/ServiceProxy.ts:49-57 | with `RPC_TOKEN` set, `x-rpc-token` carries it; otherwise the headers are unchanged |
| RpcClient.CallRoundTrip | packages/rpc/src/client/ServiceProxy.ts:137-164 | a proxy call answered by `HttpTransport` returns the remote method's result, or fails with its error message |
| RpcClient.RequestHeaders | packages/rpc/src/client/ServiceProxy.ts:36-39 | a request carries the instance and common headers; an instance header beats a common one of the same name, and `x-rpc-token`, when `RPC_TOKEN` is set, beats both |
| RpcClient.SharedTokenAdmits | packages/rpc/src/client/ServiceProxy.ts:52-55 | client and server sharing a non-empty `RPC_TOKEN` pass the server's token check |
| RpcClient.ServiceProxy.constructor | packages/rpc/src/client/ServiceProxy.ts:32-43 | base URL as given; the timeout defaults to 30000; configured headers override the defaults |
| RpcClient.ServiceProxy.CreateProxy | packages/rpc/src/client/ServiceProxy.ts:96-127 | the cached proxy when there is one; otherwise a new proxy for the name, distinct from every cached one, now cached |
| RpcClient.ServiceProxy.CallRemoteMethod | packages/rpc/src/client/ServiceProxy.ts:137-164 | the envelope is posted with `RequestHeaders`; the call yields the data of a successful answer, the remote message of a failed answer or of an error response, and otherwise rethrows the transport error |
| RpcClient.ServiceProxy.SetAuthToken | packages/rpc/src/client/ServiceProxy.ts:170-172 | the common `Authorization` becomes `Bearer <token>`; requests carry it unless the constructor's headers name their own (`RequestHeaders`) |
| RpcClient.ServiceProxy.SetHeaders | packages/rpc/src/client/ServiceProxy.ts:178-183 | the new headers are merged over the common ones, and the new values win (over common headers only: see `RequestHeaders`) |
| ClientRegistry.ServiceTokenDistinct | packages/rpc/src/client/ServiceRegistry.ts:75-77 | within one namespace, distinct services get distinct container tokens |
| ClientRegistry.Defined | packages/rpc/src/client/ServiceRegistry.ts:42-44 | registering the discovered services keeps the definitions well formed |
| ClientRegistry.DefinedKeepsOthers | packages/rpc/src/client/ServiceRegistry.ts:63 | a name no discovered service carries keeps its definition |
| ClientRegistry.DefinedLastWins | packages/rpc/src/client/ServiceRegistry.ts:63 | a discovered name is defined by its last registration |
| ClientRegistry.ServiceRegistry.constructor | packages/rpc/src/client/ServiceRegistry.ts:22-30 | no proxies, no definitions |
| ClientRegistry.ServiceRegistry.RegisterService | packages/rpc/src/client/ServiceRegistry.ts:60-67 | the memoised proxy is filed under the name, its definition set, and placed in the container under `client_ns_name`; `getService` then returns it; the proxy cache gains at most that name; nothing else changes |
| ClientRegistry.ServiceRegistry.GetService | packages/rpc/src/client/ServiceRegistry.ts:86-92 | the filed proxy, or the error "Service not found: name" |
| ClientRegistry.ServiceRegistry.GetServiceDefinition | packages/rpc/src/client/ServiceRegistry.ts:99-101 | the definition, or undefined exactly when there is none |
| ClientRegistry.ServiceRegistry.GetAllServices | packages/rpc/src/client/ServiceRegistry.ts:107-109 | exactly the filed definitions |
| ClientRegistry.ServiceRegistry.AutoDiscover | packages/rpc/src/client/ServiceRegistry.ts:37-50 | a successful reply registers every service in order, each bound in the container, and touches nothing else: other names keep their proxies, other tokens their objects, cached proxies stay cached, the other container tables and the common headers are unchanged; a failed or unsuccessful reply changes nothing |
| RoutesConfig.FindRoute | rpc/src/client/ServiceRegistry.ts:48 | the first route with the name, or none exactly when no route has it |
| RoutesConfig.FindOwnRoute | apps/gateway/src/routers/router.ts:129 | in a table with distinct names, a route's own name finds that route |
| RoutesConfig.RpcRoutes | packages/rpc/src/config/routesConfig.ts:1-29 | the table has five routes; their targets are stated by `BalancedRegistry.BusinessTargets`, `BookingsTargets` and `PaymentsTargets`, and their validity by `AppsGateway.RpcRoutesValidate` |
| BalancedRegistry.RouteTarget | rpc/src/client/ServiceRegistry.ts:48-50 | the target of the first route named after the module, or "" when none is |
| BalancedRegistry.BalancedGet | rpc/src/client/ServiceRegistry.ts:64-77 | every string key is a call of that method on the proxy's service and target; a symbol key reads undefined |
| BalancedRegistry.BalancedProxyIsThenable | rpc/src/client/ServiceRegistry.ts:67-73 | unlike a `ServiceProxy` proxy, reading `then` on a load-balanced proxy is a remote call |
| BalancedRegistry.Transport.constructor | rpc/src/client/ServiceRegistry.ts:31 | the shared transport's base URL as given |
| BalancedRegistry.ServiceRegistry.constructor | rpc/src/client/ServiceRegistry.ts:24-32 | no proxies, no definitions, the given transport |
| BalancedRegistry.ServiceRegistry.RegisterRpcService | rpc/src/client/ServiceRegistry.ts:45-55 | a proxy for `module*name*version`, bound to the module's route target, is filed, defined with no methods, and placed in the container under that name |
| BalancedRegistry.ServiceRegistry.Invoke | rpc/src/client/ServiceRegistry.ts:68-72 | the shared transport is pointed at the proxy's target, then the call is sent to the proxy's service |
| BalancedRegistry.BusinessTargets | apps/business/src/config/RpcRegistry.ts:3-14 | module `auth` of the business application's services finds the auth route's target |
| BalancedRegistry.BookingsTargets | apps/bookings/src/config/RpcRegistry.ts:7-14 | module `analytics` of the bookings application's user service finds the analytics route's target |
| BalancedRegistry.PaymentsTargets | apps/payments/src/config/RpcRegistry.ts:3-9 | module `biz` of the payments application finds no route, so its proxy's target is "" |
| GatewayRoutes.Seen | apps/gateway/src/routers/router.ts:29-39 | exactly the prefixes of the routes checked so far |
| GatewayRoutes.ValidateRoutes | apps/gateway/src/routers/router.ts:28-41 | the one-pass loop raises what `Check` gives |
| GatewayRoutes.ValidatesIff | apps/gateway/src/routers/router.ts:28-41 | the table passes if and only if every route has a prefix and a target and no prefix repeats |
| GatewayRoutes.FirstOffenceReported | apps/gateway/src/routers/router.ts:31-38 | the first offending route is reported: a missing field by its index, a repeat by its prefix |
| GatewayRoutes.CheckSkips | apps/gateway/src/routers/router.ts:31-40 | checking a well-formed stretch raises nothing |
| GatewayRoutes.CheckPasses | apps/gateway/src/routers/router.ts:31-40 | a check that raises nothing has seen a well-formed table |
| GatewayRoutes.ProxyLayers | apps/gateway/src/routers/router.ts:47-49 | one proxy layer per route, in table order, at the route's prefix |
| GatewayRoutes.Registered | apps/gateway/src/routers/router.ts:81 | filing each proxy under its prefix keeps the map well formed |
| GatewayRoutes.RegisteredInOrder | apps/gateway/src/routers/router.ts:81 | distinct new prefixes are appended in table order |
| GatewayRoutes.RegisteredProxies | apps/gateway/src/routers/router.ts:76-88 | each route's own proxy is filed under its prefix; other prefixes keep theirs |
| GatewayRoutes.RegisteredTable | apps/gateway/src/routers/router.ts:46-49 | a valid table registers exactly its prefixes, in order, each with its route's proxy |
| GatewayRoutes.ProxyErrorReply | apps/gateway/src/routers/router.ts:163-188 | ECONNREFUSED gives 503 naming the service; otherwise ETIMEDOUT gives 504; anything else gives 502 |
| GatewayRoutes.ForwardHeaders | apps/gateway/src/routers/router.ts:153-158 | the four forwarding headers; `x-forwarded-for` and `x-real-ip` are the client ip, falling back to the socket address |
| GatewayRoutes.Rewrite | apps/gateway/src/routers/router.ts:102-104 | a path under the prefix loses the prefix; any other path is unchanged |
| Base.ReplaceFirstAtFirstMatch | apps/gateway/src/routers/router.ts:106 | when the pattern occurs, `replace` rewrites its first occurrence, at the first position where it occurs, and keeps the text before and after |
| AppsGateway.SelectServiceInstance | apps/gateway/src/routers/router.ts:128-132 | the named route's target followed by its prefix; with no such route, "undefined" |
| AppsGateway.UpstreamRestoresPrefix | apps/gateway/src/routers/router.ts:82-107 | a request for `prefix + rest` reaches the proxy as `rest`; when `rest` does not itself start with the prefix, the upstream URL is the route's target followed by the whole original path |
| AppsGateway.UpstreamDropsRepeatedPrefix | apps/gateway/src/routers/router.ts:82-107 | a request for `prefix + prefix + rest` reaches the route's target as `prefix + rest`: the rewrite also removes the second copy, so one copy of a non-empty prefix is lost |
| AppsGateway.RpcRoutesValidate | packages/rpc/src/config/routesConfig.ts:1-29 | the imported table validates whatever the environment holds |
| AppsGateway.RouterManager.Empty | apps/gateway/src/routers/router.ts:17-20 | the table as given, no proxies, no layers |
| AppsGateway.RouterManager.Create | apps/gateway/src/routers/router.ts:17-23 | throws exactly when validation fails, with the first offence; otherwise registers the table and mounts its layers then the error stage |
| AppsGateway.RouterManager.SetupRoutes | apps/gateway/src/routers/router.ts:46-71 | one proxy per route, filed and mounted in order, then the error stage |
| PackagesGateway.InitializeServiceMap | packages/gateway/src/routers/router.ts:38-47 | exactly the six services, each with a non-empty URL: analytics, auth, booking, business, payments and report take their environment URL, or `http://localhost:3001` to `3006` in that order when it is unset or empty |
| PackagesGateway.GetTargetUrl | packages/gateway/src/routers/router.ts:147-153 | the configured URL, or "No URL configured for service: name" exactly when there is none |
| PackagesGateway.EveryRouteReachesAnalytics | packages/gateway/src/routers/router.ts:110-141 | every route forwards a request for `prefix + rest` to `http://localhost:3001/api/analytics` followed by `rest`, when `rest` does not itself start with the prefix |
| PackagesGateway.AnalyticsDropsRepeatedPrefix | packages/gateway/src/routers/router.ts:110-141 | a request for `prefix + prefix + rest` reaches `http://localhost:3001/api/analytics` followed by `rest` alone |
| PackagesGateway.LogicalRoutesConfigured | packages/gateway/src/routers/router.ts:38-69 | the logical table validates and every target in it has a URL |
| PackagesGateway.StatsOf | packages/gateway/src/routers/router.ts:218-222 | one stat per route, in order |
| PackagesGateway.RouterManager.Empty | packages/gateway/src/routers/router.ts:25-30 | the table and service map as given, no proxies |
| PackagesGateway.RouterManager.Create | packages/gateway/src/routers/router.ts:25-33 | throws exactly when validation fails, with the first offence; otherwise registers and mounts the table |
| PackagesGateway.RouterManager.SetupRoutes | packages/gateway/src/routers/router.ts:74-78 | one proxy per route, filed and mounted in order |
| PackagesGateway.RouterManager.GetRoutes | packages/gateway/src/routers/router.ts:211-213 | a fresh array holding the table |
| PackagesGateway.RouterManager.GetRouteStats | packages/gateway/src/routers/router.ts:215-224 | the route count and, per route, whether its target has a URL and that URL or "Not configured" |
| Registry.NewInstance | packages/registry-center/src/services/RegistryService.ts:19-31 | the generated id, the registration's fields, protocol defaulting to http, metadata to `{}`, the heartbeat at now, status UP |
| Registry.ClientIdMatches | packages/rpc/src/client/RegistryClient.ts:55 | the id a client heartbeats with is the id its registration was filed under |
| Registry.DiscoverIn | packages/registry-center/src/services/RegistryService.ts:67-76 | exactly the UP instances with the name and, when given, the version |
| Registry.NamedIn | packages/registry-center/src/services/RegistryService.ts:88-91 | exactly the instances with the name, UP or not |
| Registry.SurvivorsMembers | packages/registry-center/src/services/RegistryService.ts:119-135 | the survivors are exactly the ids not silent past five intervals |
| Registry.Expire | packages/registry-center/src/services/RegistryService.ts:119-135 | the clean-up pass removes exactly the stale instances, keeps the order and values of the rest, and counts the removals |
| Registry.RegistryService.constructor | packages/registry-center/src/services/RegistryService.ts:8-13 | no instances; the heartbeat check is scheduled |
| Registry.RegistryService.Register | packages/registry-center/src/services/RegistryService.ts:18-37 | the new instance is filed under its id, replacing any instance with that id in place |
| Registry.RegistryService.Unregister | packages/registry-center/src/services/RegistryService.ts:42-48 | true exactly when the id was registered; afterwards it is not |
| Registry.RegistryService.Heartbeat | packages/registry-center/src/services/RegistryService.ts:53-62 | a registered instance gets the new time and status UP; an unknown id changes nothing |
| Registry.RegistryService.Discover | packages/registry-center/src/services/RegistryService.ts:67-76 | exactly the registered UP instances matching the name and the version when given |
| Registry.RegistryService.GetAllServices | packages/registry-center/src/services/RegistryService.ts:81-83 | every instance, in registration order |
| Registry.RegistryService.GetServiceInstances | packages/registry-center/src/services/RegistryService.ts:88-91 | every instance with the name, UP or not |
| Registry.RegistryService.CheckHeartbeats | packages/registry-center/src/services/RegistryService.ts:96-107 | instances silent for more than three intervals become DOWN; no instance is removed or reordered |
| Registry.RegistryService.CleanupExpiredServices | packages/registry-center/src/services/RegistryService.ts:119-135 | as `Expire`, on the service's own table |
| Registry.RegistryService.Stop | packages/registry-center/src/services/RegistryService.ts:140-144 | the timer is cancelled; the instances are kept |
| Registry.ReRegisterReplaces | packages/registry-center/src/services/RegistryService.ts:33 | registering the same information again replaces the record in place, with the later time |
| RegistryRoutes.PostRegister | packages/registry-center/src/routes/Registry.ts:9-35 | 400 with nothing stored if and only if the name, address or port is missing; otherwise 201 with the stored instance |
| RegistryRoutes.DeleteUnregister | packages/registry-center/src/routes/Registry.ts:38-61 | 200 when the id was registered, 404 otherwise; the id is gone afterwards |
| RegistryRoutes.PostHeartbeat | packages/registry-center/src/routes/Registry.ts:64-87 | 200 and a refreshed instance, or 404 and no change |
| RegistryRoutes.ListReply | packages/registry-center/src/routes/Registry.ts:103-107 | `count` is the length of `data` |
| RegistryRoutes.PostDiscover | packages/registry-center/src/routes/Registry.ts:90-115 | 400 if and only if there is no name; otherwise the discovered instances and their count |
| RegistryRoutes.GetServices | packages/registry-center/src/routes/Registry.ts:118-134 | every instance, and their number |
| RegistryRoutes.GetServicesByName | packages/registry-center/src/routes/Registry.ts:137-154 | exactly the instances with the name, and their number |
| RegistryRoutes.GetHealth | packages/registry-center/src/routes/Registry.ts:157-164 | UP, with the number of registered instances whatever their status |
| RegistryRoutes.RegisterThenHeartbeat | packages/rpc/src/client/RegistryClient.ts:40-62 | a client that registers and then heartbeats finds its own record, refreshed and UP |

## Left out

- Logging and `console` output are not modelled, and neither is the development-only error detail (`stack`).
- The clock is a parameter of every member that reads it, and so are environment variables, generated request and client ids, the JWT verifier, and the remote method or HTTP `call` a proxy invokes.
- The timers of `RegistryService` are a `timerRunning` flag. `CheckHeartbeats` and `CleanupExpiredServices` are methods a caller runs; nothing schedules them.
- The scanners do not read a file system. A directory is given as missing or as the list of files the glob selects, and a file as its exports or its load error.
- Express, multer and http-proxy-middleware are not modelled. A mounted route is a record of verb, path and handler. A gateway layer is a record of prefix and proxy.
- `GET /health` of `HttpTransport` lists the files under the working directory. Only its mounting is modelled.
- `setupMiddlewares`, `start`, `getApp`, `transformServiceInfo`, `getDiscoveredServices`, `getDiscoveredServiceInstances` and `getServiceRegistry` of `HttpTransport` only configure Express or return fields. They are left out.
- `HttpTransport.discoverRpcService` calls `registerRpcService` on the packages/rpc `ServiceRegistry`, which has no such method. It is left out. The rpc/ registry's `registerRpcService` is modelled instead, as `BalancedRegistry.ServiceRegistry.RegisterRpcService`.
- `ServiceProxy.discoverServices` fetches `/rpc/services`, and no transport mounts that path. `ClientRegistry.ServiceRegistry.AutoDiscover` therefore takes the reply as a parameter (`DiscoveryReply`).
- `HttpTransport.handleServiceDiscovery` is defined but never mounted. It is modelled as a function of the catalogue (`ServiceDiscovery`).
- The 500 paths of the registry-center routes are not modelled. With a JSON body parser the body is always an object, so no modelled input throws there.
- `pathRewrite` is a regular expression `^prefix`. It is modelled as a literal prefix match, which is exact for the prefixes in these route tables (none holds a regex metacharacter other than `/`).
- Express strips the mount path before a proxy sees the request, and `Upstream` takes what is left of the URL. How Express matches a mount path (the trailing slash of `/api/auth/` is optional) and the `/` it puts in front of a remainder are not modelled.
- AppsGateway.UpstreamRestoresPrefix, PackagesGateway.EveryRouteReachesAnalytics: `Upstream` appends the rewritten path to the router's target as text. http-proxy joins the target's path and the request path and collapses repeated slashes, so where the model's URL holds `//` (a prefix ending in `/` followed by a remainder starting with `/`), the real request has one `/`.
- PackagesGateway.GetTargetUrl, PackagesGateway.StatOf: `serviceMap` is a plain object, so in the source a name such as `toString` or `constructor` reads an inherited property, which is truthy, and counts as configured. The model treats every name outside the map as not configured. No route table names such a target.
- The gateway routers' `logRequest` and `logResponse` only log.
- JSON bodies are modelled as a small `Json` datatype with undefined, null, booleans, integers, text, arrays and objects. Floating-point numbers are left out.
- RpcClient.RequestHeaders: axios merges header names case-insensitively (`authorization` and `Authorization` are one header); the model treats header names as exact strings. The default `Accept` header axios adds to `defaults.headers.common` is not modelled either: `commonHeaders` starts empty.
- HttpTransport.SpreadArgs: the text of the `TypeError` thrown for non-iterable `args` is engine- and version-dependent; the model uses one V8 wording (`NOT_ITERABLE`).
- HttpTransport.RouteVerb: `Base.ToUpper` and `Base.ToLower` fold ASCII letters only, while JavaScript's `toUpperCase` and `toLowerCase` fold all of Unicode (`"poſt".toUpperCase()` is `"POST"`). So route-verb matching and header-name lower-casing (`HttpTransport.ArgFor`) differ from the source for non-ASCII input.
- The order in which `Object.entries` lists a module's exports is given, as a sequence.
- Objects built by the container are values, not references. The model does not capture two holders of one singleton seeing each other's field updates.
- `DI.DIContainer.Resolve`: termination uses a ghost ranking of registrations, a proof-only argument that dependencies are acyclic. A cyclic dependency graph, which the code would recurse on until the stack overflows, is outside the model.
- rpc/src/di/Container.ts is not part of this model; the container of packages/rpc is used for both scanners.
- rpc/src/client/ServiceProxy.ts is not part of this model. Its `setBaseUrl` and `call` are modelled as a base-URL field and a call parameter (`BalancedRegistry.Transport`, `BalancedRegistry.ServiceRegistry.Invoke`).
- rpc/src/config/routesConfig.ts is not part of this model; the table of packages/rpc/src/config/routesConfig.ts is used.
- packages/gateway/src/config/routesConfig.ts is not part of this model; the table of apps/gateway/src/config/routesConfig.ts is used as its route table (`LOGICAL_ROUTES`).
- packages/rpc/src/utils/CommonError.ts is not part of this model; the class at src/utils/CommonError.ts is used.

Behaviour that the model keeps as written, with the member that shows it:

- The packages/rpc scanner classifies and resolves a class by the class itself (`ClassToken`). The decorators register by name (`Named`). So an `@Service` class is never classified as a service, and resolving an rpc service or controller fails "not registered" unless the class was also registered under itself (`PackagesScanner.RegisterService`).
- The permit-all token uses the class name, but the gate is checked with the catalogued name. A controller given an explicit name is gated despite `@PermitAll` (`HttpTransport.PermitAllMissesRenamedController`).
- The packages gateway sends every route to the analytics address (`PackagesGateway.EveryRouteReachesAnalytics`). `getTargetUrl` is never called by the proxies.
- The `^prefix` rewrite runs on the URL that Express already stripped of the mount prefix. It only fires when the remainder starts with the prefix again, and then one copy is lost: a request for `/api/analytics/api/analytics/x` reaches its upstream as `/api/analytics/x` (`AppsGateway.UpstreamDropsRepeatedPrefix`, `PackagesGateway.AnalyticsDropsRepeatedPrefix`).
- Module `biz` of the payments application names no route, so its order-service proxy has an empty target (`BalancedRegistry.PaymentsTargets`).
- `client_<namespace>_<name>` tokens can collide across namespaces, for example namespace `a_b` with name `c` and namespace `a` with name `b_c`. Only distinctness within one namespace is proved (`ClientRegistry.ServiceTokenDistinct`).
