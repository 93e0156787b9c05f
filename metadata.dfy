/** The reflection metadata (`Reflect.defineMetadata` / `getMetadata`) that the
    decorators write and the container, scanners and transport read, kept as one
    mutable store with a table per metadata key. */
module Metadata {
  import opened Base
  import opened Runtime

  /** `rpc:service`. */
  datatype RpcServiceMeta = RpcServiceMeta(name: string, version: string, cls: ClassRef, scope: Scope)
  /** `controller:metadata`. */
  datatype ControllerMeta = ControllerMeta(basePath: string, name: string, version: string, scope: Scope)
  /** `service:metadata` and `component:metadata`. */
  datatype NamedMeta = NamedMeta(name: string, version: string, scope: Scope)
  /** One entry of `controller:routes`. */
  datatype RouteMeta = RouteMeta(httpMethod: string, path: string, name: string)
  /** One entry of `rpc:methods`. */
  datatype RpcMethodMeta = RpcMethodMeta(name: string, originalName: string, description: Option<string>)

  /** `ParameterType`. */
  datatype ParamKind =
    | RequestParam | ResponseParam | QueryParam | BodyParam
    | FormParam | PathParam | HeadersParam | HeaderParam

  /** The string value of each `ParameterType` member. */
  function KindValue(k: ParamKind): string {
    match k
    case RequestParam => "request"
    case ResponseParam => "response"
    case QueryParam => "query"
    case BodyParam => "body"
    case FormParam => "form"
    case PathParam => "param"
    case HeadersParam => "headers"
    case HeaderParam => "header"
  }

  /** One entry of `controller:params`: `HttpParameterMetadata`. */
  datatype ParamMeta = ParamMeta(index: nat, kind: ParamKind, name: Option<string>, required: Option<bool>)

  /** Every table of the store at one moment, for stating what an update leaves alone. */
  datatype MetaState = MetaState(
    paramTypes: map<ClassRef, seq<Option<ClassRef>>>,
    rpcService: map<ClassRef, RpcServiceMeta>,
    controller: map<ClassRef, ControllerMeta>,
    service: map<ClassRef, NamedMeta>,
    component: map<ClassRef, NamedMeta>,
    routes: map<ClassRef, seq<RouteMeta>>,
    rpcMethods: map<ClassRef, seq<RpcMethodMeta>>,
    injections: map<ClassRef, seq<Option<string>>>,
    params: map<(ClassRef, string), seq<ParamMeta>>)
  {
    /** `getMetadata('controller:routes', cls) || []`. */
    function RoutesOf(cls: ClassRef): seq<RouteMeta> {
      if cls in routes then routes[cls] else []
    }

    /** `getMetadata('rpc:methods', cls) || []`. */
    function RpcMethodsOf(cls: ClassRef): seq<RpcMethodMeta> {
      if cls in rpcMethods then rpcMethods[cls] else []
    }
  }

  /** The global metadata registry. Each field is one metadata key; a class that
      has no entry in a table has no metadata under that key. */
  class Store {
    /** `design:paramtypes`, emitted by the compiler; `None` marks an `undefined` slot. */
    var paramTypes: map<ClassRef, seq<Option<ClassRef>>>
    var rpcService: map<ClassRef, RpcServiceMeta>
    var controller: map<ClassRef, ControllerMeta>
    var service: map<ClassRef, NamedMeta>
    var component: map<ClassRef, NamedMeta>
    var routes: map<ClassRef, seq<RouteMeta>>
    var rpcMethods: map<ClassRef, seq<RpcMethodMeta>>
    /** `di:injections`: the token chosen by `@Inject` per constructor slot. */
    var injections: map<ClassRef, seq<Option<string>>>
    /** `controller:params`, keyed by class and method name. */
    var params: map<(ClassRef, string), seq<ParamMeta>>

    /** A store as the compiler leaves it: only design types are present. */
    constructor (design: map<ClassRef, seq<Option<ClassRef>>>)
      ensures paramTypes == design
      ensures rpcService == map[] && controller == map[] && service == map[] && component == map[]
      ensures routes == map[] && rpcMethods == map[] && injections == map[] && params == map[]
    {
      paramTypes := design;
      rpcService, controller, service, component := map[], map[], map[], map[];
      routes, rpcMethods, injections, params := map[], map[], map[], map[];
    }

    /** The whole store as a value. */
    function State(): MetaState
      reads this
    {
      MetaState(paramTypes, rpcService, controller, service, component, routes, rpcMethods, injections, params)
    }

    /** `getMetadata('design:paramtypes', cls) || []`. */
    function ParamTypesOf(cls: ClassRef): (r: seq<Option<ClassRef>>)
      reads this
    {
      if cls in paramTypes then paramTypes[cls] else []
    }

    /** `getMetadata('di:injections', cls) || []`. */
    function InjectionsOf(cls: ClassRef): (r: seq<Option<string>>)
      reads this
    {
      if cls in injections then injections[cls] else []
    }

    function RoutesOf(cls: ClassRef): (r: seq<RouteMeta>)
      reads this
    {
      State().RoutesOf(cls)
    }

    function RpcMethodsOf(cls: ClassRef): (r: seq<RpcMethodMeta>)
      reads this
    {
      State().RpcMethodsOf(cls)
    }

    /** `getMetadata('controller:params', cls, methodName) || []`. */
    function ParamsOf(cls: ClassRef, methodName: string): (r: seq<ParamMeta>)
      reads this
    {
      if (cls, methodName) in params then params[(cls, methodName)] else []
    }
  }
}
