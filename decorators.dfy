/** The class, method and constructor-parameter decorators: how a component's
    container name is derived, and what each decorator writes into the container
    and the metadata store. A decorator call is a method over both. */
module Decorators {
  import opened Base
  import opened Runtime
  import opened Metadata
  import opened DI

  /** The options object of `@RpcService`, `@Service` and `@Component`; absent fields are `None`. */
  datatype ClassOptions = ClassOptions(name: Option<string>, version: Option<string>, scope: Option<Scope>)

  /** The options object of `@Controller`. */
  datatype ControllerOptions = ControllerOptions(basePath: Option<string>, name: Option<string>,
                                                 version: Option<string>, scope: Option<Scope>)

  const DEFAULT_VERSION := "1.0.0"

  /** `options?.scope || 'singleton'`. */
  function ScopeOrDefault(s: Option<Scope>): Scope {
    s.GetOr(Singleton)
  }

  /** Drops one trailing "Impl", as `@Service` does. */
  function StripImpl(name: string): (r: string)
    ensures EndsWith(name, "Impl") ==> r + "Impl" == name
    ensures !EndsWith(name, "Impl") ==> r == name
  {
    if EndsWith(name, "Impl") then name[..|name| - 4] else name
  }

  /** Exactly one "Impl" is removed: an implementation class named `XImpl` registers as `X`,
      even when `X` itself ends in "Impl". */
  lemma StripImplOnce(name: string)
    ensures StripImpl(name + "Impl") == name
  {
    assert EndsWith(name + "Impl", "Impl") by {
      assert (name + "Impl")[|name|..] == "Impl";
    }
    assert (name + "Impl")[..|name|] == name;
  }

  /** The container name of an `@RpcService`: `MODULE_NAME + "*" + (name || className)`.
      An unset `MODULE_NAME` prints as "undefined". */
  function RpcServiceName(moduleName: Option<string>, explicit: Option<string>, className: string): (r: string)
    ensures r == Render(moduleName) + "*" + OrElse(explicit, className)
  {
    Render(moduleName) + "*" + OrElse(explicit, className)
  }

  /** The container name of an `@Service`: the explicit name or the class name, less one "Impl". */
  function ServiceName(explicit: Option<string>, className: string): (r: string)
    ensures Truthy(explicit) ==> r == StripImpl(explicit.value)
    ensures !Truthy(explicit) ==> r == StripImpl(className)
  {
    StripImpl(OrElse(explicit, className))
  }

  lemma PayServiceImplName()
    ensures ServiceName(None, "PayServiceImpl") == "PayService"
    ensures ServiceName(Some("EmailServiceImpl"), "Other") == "EmailService"
    ensures ServiceName(None, "Impl") == ""
  {
    StripImplOnce("PayService");
    StripImplOnce("EmailService");
    StripImplOnce("");
  }

  /** The permit-all key of a method: `ClassName*method`, then `*VERB` when a verb is given. */
  function PermitToken(className: string, methodName: string, verb: Option<string>): (t: string)
    ensures Truthy(verb) ==> t == className + "*" + methodName + "*" + verb.value
    ensures !Truthy(verb) ==> t == className + "*" + methodName
  {
    var token := className + "*" + methodName;
    if Truthy(verb) then token + "*" + verb.value else token
  }

  /** `@RpcService(metadata?)`: registers the class under its prefixed name and records the
      same name, the version (default "1.0.0") and the scope (default singleton). */
  method RpcService(c: DIContainer, meta: Store, target: ClassRef, moduleName: Option<string>, opts: ClassOptions)
    requires c.Valid()
    modifies c, meta
    ensures c.Valid()
    ensures var name := RpcServiceName(moduleName, opts.name, target.name);
            var scope := ScopeOrDefault(opts.scope);
            && c.State() == old(c.State()).(services := old(c.services).Set(Named(name),
                                              Registration(Named(name), target, scope, old(meta.ParamTypesOf(target)))))
            && meta.State() == old(meta.State()).(rpcService := old(meta.rpcService)[target :=
                                  RpcServiceMeta(name, OrElse(opts.version, DEFAULT_VERSION), target, scope)])
  {
    var name := RpcServiceName(moduleName, opts.name, target.name);
    var scope := ScopeOrDefault(opts.scope);
    c.Register(Named(name), target, scope, meta);
    meta.rpcService := meta.rpcService[target := RpcServiceMeta(name, OrElse(opts.version, DEFAULT_VERSION), target, scope)];
  }

  /** `@Controller(options?)`: registers under the explicit or class name, unchanged; the
      base path defaults to "". */
  method Controller(c: DIContainer, meta: Store, target: ClassRef, opts: ControllerOptions)
    requires c.Valid()
    modifies c, meta
    ensures c.Valid()
    ensures var name := OrElse(opts.name, target.name);
            var scope := ScopeOrDefault(opts.scope);
            && c.State() == old(c.State()).(services := old(c.services).Set(Named(name),
                                              Registration(Named(name), target, scope, old(meta.ParamTypesOf(target)))))
            && meta.State() == old(meta.State()).(controller := old(meta.controller)[target :=
                                  ControllerMeta(OrElse(opts.basePath, ""), name, OrElse(opts.version, DEFAULT_VERSION), scope)])
  {
    var name := OrElse(opts.name, target.name);
    var scope := ScopeOrDefault(opts.scope);
    c.Register(Named(name), target, scope, meta);
    meta.controller := meta.controller[target := ControllerMeta(OrElse(opts.basePath, ""), name,
                                                                 OrElse(opts.version, DEFAULT_VERSION), scope)];
  }

  /** `@Service(options?)`: registers under `ServiceName`, i.e. with one "Impl" stripped. */
  method Service(c: DIContainer, meta: Store, target: ClassRef, opts: ClassOptions)
    requires c.Valid()
    modifies c, meta
    ensures c.Valid()
    ensures var name := ServiceName(opts.name, target.name);
            var scope := ScopeOrDefault(opts.scope);
            && c.State() == old(c.State()).(services := old(c.services).Set(Named(name),
                                              Registration(Named(name), target, scope, old(meta.ParamTypesOf(target)))))
            && meta.State() == old(meta.State()).(service := old(meta.service)[target :=
                                  NamedMeta(name, OrElse(opts.version, DEFAULT_VERSION), scope)])
  {
    var serviceName := OrElse(opts.name, target.name);
    if EndsWith(serviceName, "Impl") {
      serviceName := serviceName[..|serviceName| - 4];
    }
    var scope := ScopeOrDefault(opts.scope);
    c.Register(Named(serviceName), target, scope, meta);
    meta.service := meta.service[target := NamedMeta(serviceName, OrElse(opts.version, DEFAULT_VERSION), scope)];
  }

  /** `@Component(options?)`: like `@Controller`, without a base path. */
  method Component(c: DIContainer, meta: Store, target: ClassRef, opts: ClassOptions)
    requires c.Valid()
    modifies c, meta
    ensures c.Valid()
    ensures var name := OrElse(opts.name, target.name);
            var scope := ScopeOrDefault(opts.scope);
            && c.State() == old(c.State()).(services := old(c.services).Set(Named(name),
                                              Registration(Named(name), target, scope, old(meta.ParamTypesOf(target)))))
            && meta.State() == old(meta.State()).(component := old(meta.component)[target :=
                                  NamedMeta(name, OrElse(opts.version, DEFAULT_VERSION), scope)])
  {
    var name := OrElse(opts.name, target.name);
    var scope := ScopeOrDefault(opts.scope);
    c.Register(Named(name), target, scope, meta);
    meta.component := meta.component[target := NamedMeta(name, OrElse(opts.version, DEFAULT_VERSION), scope)];
  }

  /** `@PermitAll(method?)` on `target.methodName`: files the permit key with the container,
      which refuses it only when it is the name of a known class. */
  method PermitAll(c: DIContainer, target: ClassRef, methodName: string, verb: Option<string>)
    returns (err: Option<string>)
    modifies c
    ensures var token := PermitToken(target.name, methodName, verb);
            && (err.Some? <==> token in old(c.allClassRelationMap))
            && (err.None? ==> c.State() == old(c.State()).(routesPermitAllMap := old(c.routesPermitAllMap)[token := true]))
            && (err.Some? ==> c.State() == old(c.State()))
  {
    err := c.RegisterPermitAll(PermitToken(target.name, methodName, verb));
  }

  /** `HttpMethod(method, path)` on `target.methodName`: appends one route, keeping the earlier ones. */
  method HttpMethod(meta: Store, target: ClassRef, httpMethod: string, path: string, methodName: string)
    modifies meta
    ensures meta.RoutesOf(target) == old(meta.RoutesOf(target)) + [RouteMeta(httpMethod, path, methodName)]
    ensures meta.State() == old(meta.State()).(routes := meta.routes)
    ensures forall cls :: cls != target ==> meta.RoutesOf(cls) == old(meta.RoutesOf(cls))
  {
    var routes := meta.RoutesOf(target);
    routes := routes + [RouteMeta(httpMethod, path, methodName)];
    meta.routes := meta.routes[target := routes];
  }

  /** The five shortcuts `@GET` … `@PATCH`. */
  datatype Verb = GET | POST | PUT | DELETE | PATCH

  function VerbName(v: Verb): string {
    match v
    case GET => "GET"
    case POST => "POST"
    case PUT => "PUT"
    case DELETE => "DELETE"
    case PATCH => "PATCH"
  }

  /** `@GET(path = '')` and its siblings: `HttpMethod(VERB, path)` with the path defaulting to "". */
  method Shortcut(meta: Store, target: ClassRef, verb: Verb, path: Option<string>, methodName: string)
    modifies meta
    ensures meta.RoutesOf(target) == old(meta.RoutesOf(target)) + [RouteMeta(VerbName(verb), path.GetOr(""), methodName)]
    ensures meta.State() == old(meta.State()).(routes := meta.routes)
    ensures forall cls :: cls != target ==> meta.RoutesOf(cls) == old(meta.RoutesOf(cls))
  {
    HttpMethod(meta, target, VerbName(verb), path.GetOr(""), methodName);
  }

  /** `@RpcMethod(metadata?)` on `target.methodName`: the exposed name is `metadata.name || methodName`,
      the original name is always the property key. */
  method RpcMethod(meta: Store, target: ClassRef, methodName: string, name: Option<string>, description: Option<string>)
    modifies meta
    ensures meta.RpcMethodsOf(target) == old(meta.RpcMethodsOf(target)) + [RpcMethodMeta(OrElse(name, methodName), methodName, description)]
    ensures meta.State() == old(meta.State()).(rpcMethods := meta.rpcMethods)
    ensures forall cls :: cls != target ==> meta.RpcMethodsOf(cls) == old(meta.RpcMethodsOf(cls))
  {
    var methods := meta.RpcMethodsOf(target);
    methods := methods + [RpcMethodMeta(OrElse(name, methodName), methodName, description)];
    meta.rpcMethods := meta.rpcMethods[target := methods];
  }

  /** `xs` grown with `undefined` until `index` is a valid position. */
  function Padded<T>(xs: seq<Option<T>>, index: nat): (r: seq<Option<T>>)
    ensures |r| == if index < |xs| then |xs| else index + 1
    ensures r[..|xs|] == xs
    ensures forall i :: |xs| <= i < |r| ==> r[i].None?
  {
    xs + seq(if index < |xs| then 0 else index + 1 - |xs|, _ => None)
  }

  /** `while (xs.length <= index) xs.push(undefined)`. */
  method PadThrough<T>(xs: seq<Option<T>>, index: nat) returns (r: seq<Option<T>>)
    ensures r == Padded(xs, index)
  {
    r := xs;
    while |r| <= index
      invariant |xs| <= |r| <= if index < |xs| then |xs| else index + 1
      invariant r[..|xs|] == xs
      invariant forall i :: |xs| <= i < |r| ==> r[i].None?
      decreases index + 1 - |r|
    {
      r := r + [None];
    }
  }

  /** The token `@Inject(token?)` records for constructor slot `index`: the explicit token,
      else the design type's name, else `${Class}_param_${index}`. */
  function InjectionToken(token: Option<string>, types: seq<Option<ClassRef>>, className: string, index: nat): (t: string)
    requires index < |types|
    ensures Truthy(token) ==> t == token.value
    ensures !Truthy(token) && types[index].Some? ==> t == types[index].value.name
    ensures !Truthy(token) && types[index].None? ==> t == className + "_param_" + NatToString(index)
  {
    if Truthy(token) then token.value
    else if types[index].Some? then types[index].value.name
    else className + "_param_" + NatToString(index)
  }

  /** `@Inject(token?)` on constructor slot `index` of `target`. The design types are padded in
      place when the class has them; the injections list is padded and slot `index` set, the
      other slots keep their values. */
  method Inject(meta: Store, target: ClassRef, index: nat, token: Option<string>)
    modifies meta
    ensures var types := Padded(old(meta.ParamTypesOf(target)), index);
            var tok := InjectionToken(token, types, target.name, index);
            var before := old(meta.InjectionsOf(target));
            && meta.paramTypes == (if target in old(meta.paramTypes) then old(meta.paramTypes)[target := types]
                                   else old(meta.paramTypes))
            && meta.injections == old(meta.injections)[target := Padded(before, index)[index := Some(tok)]]
            && meta.State() == old(meta.State()).(paramTypes := meta.paramTypes, injections := meta.injections)
            && |meta.InjectionsOf(target)| == (if index < |before| then |before| else index + 1)
            && meta.InjectionsOf(target)[index] == Some(tok)
            && (forall j :: 0 <= j < |meta.InjectionsOf(target)| && j != index ==>
                  meta.InjectionsOf(target)[j] == (if j < |before| then before[j] else None))
  {
    var types := PadThrough(meta.ParamTypesOf(target), index);
    if target in meta.paramTypes {
      meta.paramTypes := meta.paramTypes[target := types];
    }
    var injectionToken := InjectionToken(token, types, target.name, index);
    var injections := PadThrough(meta.InjectionsOf(target), index);
    ghost var before := injections;
    injections := injections[index := Some(injectionToken)];
    meta.injections := meta.injections[target := injections];
    assert forall j :: 0 <= j < |injections| && j != index ==> injections[j] == before[j];
  }

  /** What `@Inject` records is what the container resolves: an explicit non-empty token in slot `i`
      is the dependency token `createInstance` asks for, whatever the design type says. */
  lemma InjectedTokenResolved(injections: seq<Option<string>>, deps: seq<Option<ClassRef>>, i: nat, t: string)
    requires i < |deps| && i < |injections| && injections[i] == Some(t) && t != ""
    ensures DependencyToken(injections, deps, i) == Some(Named(t))
  {
  }
}
