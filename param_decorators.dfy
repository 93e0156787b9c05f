/** The controller-method parameter decorators `@Req` … `@Header`: each appends one
    binding record to the (class, method) list in the metadata store. */
module ParameterDecorators {
  import opened Base
  import opened Runtime
  import opened Metadata

  /** A parameter decorator as written at the use site, with its arguments. */
  datatype ParamDecorator =
    | Req
    | Res
    | Query(name: Option<string>, required: Option<bool>)
    | Body
    | Form
    | Param(name: Option<string>, required: Option<bool>)
    | Headers(name: Option<string>)
    | Header(headerName: string)

  /** The binding record a decorator builds for slot `index`. */
  function BindingOf(d: ParamDecorator, index: nat): (p: ParamMeta)
    ensures p.index == index
    ensures d.Req? ==> p == ParamMeta(index, RequestParam, None, None)
    ensures d.Res? ==> p == ParamMeta(index, ResponseParam, None, None)
    ensures d.Body? ==> p == ParamMeta(index, BodyParam, None, None)
    ensures d.Form? ==> p == ParamMeta(index, FormParam, None, None)
    // `Query(name?, required = false)`
    ensures d.Query? ==> p.kind == QueryParam && p.name == d.name
                         && p.required == Some(if d.required.Some? then d.required.value else false)
    // `Param(name?, required = true)`
    ensures d.Param? ==> p.kind == PathParam && p.name == d.name
                         && p.required == Some(if d.required.Some? then d.required.value else true)
    ensures d.Headers? ==> p == ParamMeta(index, HeadersParam, d.name, None)
    ensures d.Header? ==> p == ParamMeta(index, HeaderParam, Some(d.headerName), None)
  {
    match d
    case Req => ParamMeta(index, RequestParam, None, None)
    case Res => ParamMeta(index, ResponseParam, None, None)
    case Query(name, required) => ParamMeta(index, QueryParam, name, Some(required.GetOr(false)))
    case Body => ParamMeta(index, BodyParam, None, None)
    case Form => ParamMeta(index, FormParam, None, None)
    case Param(name, required) => ParamMeta(index, PathParam, name, Some(required.GetOr(true)))
    case Headers(name) => ParamMeta(index, HeadersParam, name, None)
    case Header(name) => ParamMeta(index, HeaderParam, Some(name), None)
  }

  /** Applying decorator `d` to parameter `index` of `target.methodName`: read the list, push, write back. */
  method Decorate(meta: Store, target: ClassRef, methodName: string, index: nat, d: ParamDecorator)
    modifies meta
    ensures meta.ParamsOf(target, methodName) == old(meta.ParamsOf(target, methodName)) + [BindingOf(d, index)]
    ensures forall cls, m :: (cls, m) != (target, methodName) ==> meta.ParamsOf(cls, m) == old(meta.ParamsOf(cls, m))
    ensures meta.State() == old(meta.State()).(params := meta.params)
  {
    var existing := meta.ParamsOf(target, methodName);
    existing := existing + [BindingOf(d, index)];
    meta.params := meta.params[(target, methodName) := existing];
  }
}
