/** The JavaScript runtime entities the fabric manipulates: classes (constructor
    functions), container tokens and the objects the container hands out. */
module Runtime {

  /** An own property of a prototype object. */
  datatype Prop = Prop(name: string, isFunction: bool)

  /** A class. `id` stands for object identity (two classes may share a name);
      `proto` lists the own properties of each prototype on the class's chain,
      from `Class.prototype` up to, and excluding, `Object.prototype`. */
  datatype ClassRef = ClassRef(id: nat, name: string, proto: seq<seq<Prop>>)

  /** A container key: the decorators use strings, other callers may use a class. */
  datatype Token = Named(s: string) | ClassToken(cls: ClassRef)

  /** `token.name || token.toString()`: a string prints itself, a class its name. */
  function TokenName(t: Token): string {
    match t
    case Named(s) => s
    case ClassToken(c) => c.name
  }

  /** The objects a container keeps:
      - `Instance`: `new cls(...args)`, the `serial`-th object the container built;
      - `ClientProxy`: the `serial`-th RPC proxy a `ServiceProxy` made, for `service`;
      - `BalancedProxy`: a registry proxy bound to `serviceName` at `target`. */
  datatype Obj =
    | Instance(serial: nat, cls: ClassRef, args: seq<Obj>)
    | ClientProxy(serial: nat, service: string)
    | BalancedProxy(serviceName: string, target: string)

  /** The lifecycle of a registered service. */
  datatype Scope = Singleton | Transient | Request
}
