/** `DIContainer`: registrations keyed by token, a singleton cache, per-request
    caches, and the two name tables the decorators and the scanner share. */
module DI {
  import opened Base
  import opened OrderedMaps
  import opened Runtime
  import Metadata

  /** `ServiceRegistration`: `dependencies` are the design-time constructor
      parameter types read when the class was registered. */
  datatype Registration = Registration(token: Token, implementation: ClassRef, scope: Scope,
                                       dependencies: seq<Option<ClassRef>>)

  /** The two errors `resolve` raises. */
  datatype ResolveError =
    | NotRegistered(name: string, available: seq<string>)
    | Unresolvable(index: nat, className: string)
  {
    /** The thrown `Error`'s message. */
    function Message(): string {
      match this
      case NotRegistered(name, available) =>
        "Service not registered: " + name + ". Available services: " + Join(available, ", ")
      case Unresolvable(index, className) =>
        "Cannot resolve dependency " + NatToString(index) + " for " + className
        + ". Make sure all dependencies are decorated with @Inject()"
    }
  }

  /** The token `createInstance` resolves for constructor slot `i`: the injected
      token when one is set (`!== undefined`), else the design type; `None` when
      that value is falsy, which is the "Cannot resolve dependency" case. */
  function DependencyToken(injections: seq<Option<string>>, deps: seq<Option<ClassRef>>, i: nat): (t: Option<Token>)
    requires i < |deps|
    ensures i < |injections| && injections[i].Some? ==>
              (t.Some? <==> injections[i].value != "") && (t.Some? ==> t.value == Named(injections[i].value))
    ensures (i >= |injections| || injections[i].None?) ==>
              (t.Some? <==> deps[i].Some?) && (t.Some? ==> t.value == ClassToken(deps[i].value))
  {
    if i < |injections| && injections[i].Some? then
      (if injections[i].value == "" then None else Some(Named(injections[i].value)))
    else if deps[i].Some? then Some(ClassToken(deps[i].value))
    else None
  }

  /** Every key of `a` is in `b` with the same value. */
  ghost predicate Extends<K, V>(a: map<K, V>, b: map<K, V>) {
    forall k :: k in a ==> k in b && b[k] == a[k]
  }

  /** The cache of request `id` (an absent scope reads as empty). */
  function ScopeOf(scopes: map<string, map<Token, Obj>>, id: string): map<Token, Obj> {
    if id in scopes then scopes[id] else map[]
  }

  /** No request scope loses an entry or changes one. */
  ghost predicate ScopesExtend(a: map<string, map<Token, Obj>>, b: map<string, map<Token, Obj>>) {
    (forall id :: id in a ==> id in b) && (forall id :: id in b ==> Extends(ScopeOf(a, id), b[id]))
  }

  /** Every key `b` has and `a` lacks is ranked below `bound`. */
  ghost predicate AddedBelow(rank: map<Token, nat>, a: map<Token, Obj>, b: map<Token, Obj>, bound: nat) {
    forall k :: k in b && k !in a ==> k in rank && rank[k] < bound
  }

  /** The same for every request scope. */
  ghost predicate ScopesAddedBelow(rank: map<Token, nat>, a: map<string, map<Token, Obj>>,
                                   b: map<string, map<Token, Obj>>, bound: nat) {
    forall id :: id in b ==> AddedBelow(rank, ScopeOf(a, id), b[id], bound)
  }

  /** The caches `i1`/`s1` extend `i0`/`s0`, and everything added ranks below `bound`. */
  ghost predicate Grown(rank: map<Token, nat>, i0: map<Token, Obj>, s0: map<string, map<Token, Obj>>,
                        i1: map<Token, Obj>, s1: map<string, map<Token, Obj>>, bound: nat) {
    Extends(i0, i1) && ScopesExtend(s0, s1) && AddedBelow(rank, i0, i1, bound) && ScopesAddedBelow(rank, s0, s1, bound)
  }

  /** Growth is transitive: caches that grew below `bound` and then below a lower bound grew
      below `bound` overall. */
  lemma GrowthComposes(rank: map<Token, nat>, i0: map<Token, Obj>, s0: map<string, map<Token, Obj>>,
                       i1: map<Token, Obj>, s1: map<string, map<Token, Obj>>,
                       i2: map<Token, Obj>, s2: map<string, map<Token, Obj>>, bound: nat, lower: nat)
    requires lower <= bound
    requires Grown(rank, i0, s0, i1, s1, bound) && Grown(rank, i1, s1, i2, s2, lower)
    ensures Grown(rank, i0, s0, i2, s2, bound)
  {
    forall id | id in s2
      ensures Extends(ScopeOf(s0, id), s2[id]) && AddedBelow(rank, ScopeOf(s0, id), s2[id], bound)
    {
      assert Extends(ScopeOf(s0, id), ScopeOf(s1, id));
      assert AddedBelow(rank, ScopeOf(s0, id), ScopeOf(s1, id), bound);
    }
  }

  /** Caching a new object under `token` in the instance cache, in request `id`'s cache, or
      nowhere, on top of a growth below the token's rank, is a growth below one above it. */
  lemma CachingGrows(rank: map<Token, nat>, i0: map<Token, Obj>, s0: map<string, map<Token, Obj>>,
                     i1: map<Token, Obj>, s1: map<string, map<Token, Obj>>,
                     i2: map<Token, Obj>, s2: map<string, map<Token, Obj>>,
                     token: Token, requestId: Option<string>, obj: Obj)
    requires token in rank && Grown(rank, i0, s0, i1, s1, rank[token])
    requires token !in i0 && !InScope(s0, requestId, token)
    requires || (i2 == i1[token := obj] && s2 == s1)
             || (Truthy(requestId) && i2 == i1 && s2 == s1[requestId.value := ScopeOf(s1, requestId.value)[token := obj]])
             || (i2 == i1 && s2 == s1)
    ensures Grown(rank, i0, s0, i2, s2, rank[token] + 1)
    ensures token !in i1 && (Truthy(requestId) ==> token !in ScopeOf(s1, requestId.value))
  {
    if Truthy(requestId) {
      var id := requestId.value;
      if id in s1 {
        assert AddedBelow(rank, ScopeOf(s0, id), s1[id], rank[token]);
      }
    }
  }

  /** Every registered dependency `reg` would resolve ranks below `bound`. */
  ghost predicate DepsBelow(rank: map<Token, nat>, table: map<Token, Registration>, reg: Registration,
                            injections: seq<Option<string>>, bound: nat) {
    forall i :: 0 <= i < |reg.dependencies| ==>
      var d := DependencyToken(injections, reg.dependencies, i);
      d.Some? && d.value in table ==> d.value in rank && rank[d.value] < bound
  }

  /** Is `token` cached for this resolution: a singleton, or in request `requestId`'s scope. */
  predicate InScope(scopes: map<string, map<Token, Obj>>, requestId: Option<string>, token: Token) {
    Truthy(requestId) && requestId.value in scopes && token in scopes[requestId.value]
  }

  /** What resolving `k` for request `requestId` has left behind, given that it yielded `obj`:
      the singleton cache holds `obj` under `k`, or else the request's cache does, or else `k`
      is registered with a scope that caches nowhere (transient, or request-scoped without a
      request id) and `obj` is an instance of its registered class. */
  ghost predicate Settled(table: map<Token, Registration>, instances: map<Token, Obj>,
                          scopes: map<string, map<Token, Obj>>, requestId: Option<string>, k: Token, obj: Obj) {
    && (k in instances ==> instances[k] == obj)
    && (k !in instances && InScope(scopes, requestId, k) ==> scopes[requestId.value][k] == obj)
    && (k !in instances && !InScope(scopes, requestId, k) ==>
          && k in table && (table[k].scope == Transient || (table[k].scope == Request && !Truthy(requestId)))
          && obj.Instance? && obj.cls == table[k].implementation)
  }

  /** Between two moments of one resolution for `requestId`, the singleton cache gained only
      singletons that were not in the request's cache, and the request's cache gained only
      request-scoped tokens. */
  ghost predicate AddedFresh(table: map<Token, Registration>, requestId: Option<string>,
                             i0: map<Token, Obj>, s0: map<string, map<Token, Obj>>,
                             i1: map<Token, Obj>, s1: map<string, map<Token, Obj>>) {
    && (forall k :: k in i1 && k !in i0 ==>
          k in table && table[k].scope == Singleton && !InScope(s0, requestId, k))
    && (forall k :: InScope(s1, requestId, k) && !InScope(s0, requestId, k) ==>
          k in table && table[k].scope == Request)
  }

  /** Later resolutions for the same request never contradict an earlier one: a dependency
      once settled stays settled with the same object. */
  lemma SettledStable(table: map<Token, Registration>, requestId: Option<string>,
                      i0: map<Token, Obj>, s0: map<string, map<Token, Obj>>,
                      i1: map<Token, Obj>, s1: map<string, map<Token, Obj>>, k: Token, obj: Obj)
    requires Extends(i0, i1) && ScopesExtend(s0, s1) && AddedFresh(table, requestId, i0, s0, i1, s1)
    requires Settled(table, i0, s0, requestId, k, obj)
    ensures Settled(table, i1, s1, requestId, k, obj)
  {
    if k !in i0 && InScope(s0, requestId, k) {
      assert Extends(ScopeOf(s0, requestId.value), s1[requestId.value]);
    }
  }

  /** `args` are the objects the first `|args|` constructor slots resolved to, each through
      its slot's token and settled for the same request. */
  ghost predicate Wired(table: map<Token, Registration>, instances: map<Token, Obj>,
                        scopes: map<string, map<Token, Obj>>, requestId: Option<string>,
                        injections: seq<Option<string>>, deps: seq<Option<ClassRef>>, args: seq<Obj>) {
    && |args| <= |deps|
    && forall j :: 0 <= j < |args| ==>
         var t := DependencyToken(injections, deps, j);
         t.Some? && Settled(table, instances, scopes, requestId, t.value, args[j])
  }

  /** How a creation fails: at some slot all earlier slots had a token, and when that slot has
      none the error is "Cannot resolve dependency i for C" (otherwise the slot's own
      resolution failed). */
  ghost predicate StoppedAt(injections: seq<Option<string>>, deps: seq<Option<ClassRef>>, className: string,
                            e: ResolveError) {
    exists i :: 0 <= i < |deps|
      && (forall j :: 0 <= j < i ==> DependencyToken(injections, deps, j).Some?)
      && (DependencyToken(injections, deps, i).None? ==> e == Unresolvable(i, className))
  }

  /** Wired arguments stay wired while the same request resolves more. */
  lemma WiredStable(table: map<Token, Registration>, requestId: Option<string>,
                    i0: map<Token, Obj>, s0: map<string, map<Token, Obj>>,
                    i1: map<Token, Obj>, s1: map<string, map<Token, Obj>>,
                    injections: seq<Option<string>>, deps: seq<Option<ClassRef>>, args: seq<Obj>)
    requires Extends(i0, i1) && ScopesExtend(s0, s1) && AddedFresh(table, requestId, i0, s0, i1, s1)
    requires Wired(table, i0, s0, requestId, injections, deps, args)
    ensures Wired(table, i1, s1, requestId, injections, deps, args)
  {
    forall j | 0 <= j < |args|
      ensures Settled(table, i1, s1, requestId, DependencyToken(injections, deps, j).value, args[j])
    {
      SettledStable(table, requestId, i0, s0, i1, s1, DependencyToken(injections, deps, j).value, args[j]);
    }
  }

  /** Resolving slot `|args|` to a settled object extends the wiring by one. */
  lemma WiredStep(table: map<Token, Registration>, requestId: Option<string>,
                  i0: map<Token, Obj>, s0: map<string, map<Token, Obj>>,
                  i1: map<Token, Obj>, s1: map<string, map<Token, Obj>>,
                  injections: seq<Option<string>>, deps: seq<Option<ClassRef>>, i: nat, args: seq<Obj>, d: Obj)
    requires |args| == i < |deps|
    requires Extends(i0, i1) && ScopesExtend(s0, s1) && AddedFresh(table, requestId, i0, s0, i1, s1)
    requires Wired(table, i0, s0, requestId, injections, deps, args)
    requires DependencyToken(injections, deps, i).Some?
    requires Settled(table, i1, s1, requestId, DependencyToken(injections, deps, i).value, d)
    ensures Wired(table, i1, s1, requestId, injections, deps, args + [d])
  {
    WiredStable(table, requestId, i0, s0, i1, s1, injections, deps, args);
  }

  /** Fresh additions compose. */
  lemma FreshComposes(table: map<Token, Registration>, requestId: Option<string>,
                      i0: map<Token, Obj>, s0: map<string, map<Token, Obj>>,
                      i1: map<Token, Obj>, s1: map<string, map<Token, Obj>>,
                      i2: map<Token, Obj>, s2: map<string, map<Token, Obj>>)
    requires Extends(i0, i1) && ScopesExtend(s0, s1)
    requires AddedFresh(table, requestId, i0, s0, i1, s1) && AddedFresh(table, requestId, i1, s1, i2, s2)
    ensures AddedFresh(table, requestId, i0, s0, i2, s2)
  {
    forall k | k in i2 && k !in i0
      ensures k in table && table[k].scope == Singleton && !InScope(s0, requestId, k)
    {
      if k !in i1 && Truthy(requestId) && requestId.value in s0 {
        assert Extends(ScopeOf(s0, requestId.value), s1[requestId.value]);
      }
    }
  }

  /** `Array.from(services.keys()).map(k => k.name || k.toString())`. */
  function NamesOf(keys: seq<Token>): (names: seq<string>)
    ensures |names| == |keys|
    ensures forall i :: 0 <= i < |keys| ==> names[i] == TokenName(keys[i])
  {
    seq(|keys|, i requires 0 <= i < |keys| => TokenName(keys[i]))
  }

  /** Every table of a container at one moment. */
  datatype ContainerState = ContainerState(
    services: OMap<Token, Registration>,
    instances: map<Token, Obj>,
    requestScopes: map<string, map<Token, Obj>>,
    allClassRelationMap: map<string, ClassRef>,
    routesPermitAllMap: map<string, bool>,
    created: nat)

  class DIContainer {
    var services: OMap<Token, Registration>
    var instances: map<Token, Obj>
    var requestScopes: map<string, map<Token, Obj>>
    var allClassRelationMap: map<string, ClassRef>
    var routesPermitAllMap: map<string, bool>
    /** How many objects `createInstance` has built; the next one gets this serial. */
    var created: nat

    /** The registration table is a well-formed ordered map whose entries are filed under their own token. */
    ghost predicate Valid()
      reads this
    {
      services.Valid() && forall t :: t in services.table ==> services.table[t].token == t
    }

    /** The whole container as a value. */
    function State(): ContainerState
      reads this
    {
      ContainerState(services, instances, requestScopes, allClassRelationMap, routesPermitAllMap, created)
    }

    /** `rank` orders the registrations so that every dependency a registration would
        resolve through the container ranks strictly below it: the dependency graph is acyclic. */
    ghost predicate Ranked(rank: map<Token, nat>, meta: Metadata.Store)
      reads this, meta
    {
      forall t :: t in services.table ==> (t in rank && DepsBelow(rank, services.table, services.table[t],
                                                                 meta.InjectionsOf(services.table[t].implementation), rank[t]))
    }

    /** The termination measure of `resolve`: one above the token's rank when it is registered. */
    ghost function Height(rank: map<Token, nat>, t: Token): nat
      reads this
    {
      if t in services.table && t in rank then rank[t] + 1 else 0
    }

    constructor ()
      ensures Valid()
      ensures services == Empty() && instances == map[] && requestScopes == map[]
      ensures allClassRelationMap == map[] && routesPermitAllMap == map[] && created == 0
    {
      services := Empty();
      instances, requestScopes := map[], map[];
      allClassRelationMap, routesPermitAllMap := map[], map[];
      created := 0;
    }

    /** `register(token, implementation, scope)`: (re)files the registration, keeping the
        token's place in the order when it was already registered. */
    method Register(token: Token, implementation: ClassRef, scope: Scope, meta: Metadata.Store)
      requires Valid()
      modifies this
      ensures Valid()
      ensures services == old(services).Set(token, Registration(token, implementation, scope, meta.ParamTypesOf(implementation)))
      ensures instances == old(instances) && requestScopes == old(requestScopes) && created == old(created)
      ensures allClassRelationMap == old(allClassRelationMap) && routesPermitAllMap == old(routesPermitAllMap)
    {
      services := services.Set(token, Registration(token, implementation, scope, meta.ParamTypesOf(implementation)));
    }

    /** `registerInstance(token, instance)`. */
    method RegisterInstance(token: Token, instance: Obj)
      requires Valid()
      modifies this
      ensures Valid()
      ensures instances == old(instances)[token := instance]
      ensures forall t :: Has(t) <==> t in old(services.table)
      ensures services == old(services) && requestScopes == old(requestScopes) && created == old(created)
      ensures allClassRelationMap == old(allClassRelationMap) && routesPermitAllMap == old(routesPermitAllMap)
    {
      instances := instances[token := instance];
    }

    /** `resolve(token, requestId?)`: the singleton cache first, then the request's
        scope, then a new instance built from the registration and cached by scope. */
    method Resolve(token: Token, requestId: Option<string>, meta: Metadata.Store, ghost rank: map<Token, nat>)
      returns (r: Result<Obj, ResolveError>)
      requires Valid() && Ranked(rank, meta)
      modifies this
      decreases Height(rank, token), 1
      ensures Valid()
      ensures services == old(services)
      ensures allClassRelationMap == old(allClassRelationMap) && routesPermitAllMap == old(routesPermitAllMap)
      ensures Extends(old(instances), instances) && ScopesExtend(old(requestScopes), requestScopes)
      ensures old(created) <= created
      ensures AddedBelow(rank, old(instances), instances, old(Height(rank, token)))
      ensures ScopesAddedBelow(rank, old(requestScopes), requestScopes, old(Height(rank, token)))
      ensures AddedFresh(services.table, requestId, old(instances), old(requestScopes), instances, requestScopes)
      // whatever it yields is what the caches now hold for the token, as its scope dictates
      ensures r.Ok? ==> Settled(services.table, instances, requestScopes, requestId, token, r.value)
      // 1. a cached singleton (or a registered instance) is returned as is
      ensures token in old(instances) ==>
                r == Ok(old(instances)[token]) && instances == old(instances)
                && requestScopes == old(requestScopes) && created == old(created)
      // 2. then the request's own cache
      ensures token !in old(instances) && InScope(old(requestScopes), requestId, token) ==>
                r == Ok(old(requestScopes)[requestId.value][token]) && instances == old(instances)
                && requestScopes == old(requestScopes) && created == old(created)
      // 3. an unknown token is an error naming every registered service, in registration order
      ensures token !in old(instances) && !InScope(old(requestScopes), requestId, token) && token !in services.table ==>
                r == Err(NotRegistered(TokenName(token), NamesOf(services.keys))) && instances == old(instances)
                && requestScopes == old(requestScopes) && created == old(created)
      // 4. otherwise the result is the newest object, an instance of the registered class
      ensures token !in old(instances) && !InScope(old(requestScopes), requestId, token) && token in services.table && r.Ok? ==>
                var reg := services.table[token];
                && old(created) < created
                && r.value.Instance? && r.value.serial == created - 1 && r.value.cls == reg.implementation
                && |r.value.args| == |reg.dependencies|
                && (reg.scope == Singleton ==> token in instances && instances[token] == r.value)
                && (reg.scope != Singleton ==> token !in instances)
                && (reg.scope == Request && Truthy(requestId) ==>
                      requestId.value in requestScopes && token in requestScopes[requestId.value]
                      && requestScopes[requestId.value][token] == r.value)
                && (reg.scope == Transient && Truthy(requestId) ==> token !in ScopeOf(requestScopes, requestId.value))
                && Wired(services.table, instances, requestScopes, requestId, meta.InjectionsOf(reg.implementation),
                         reg.dependencies, r.value.args)
      // 5. a constructor slot with no token stops the creation
      ensures token !in old(instances) && !InScope(old(requestScopes), requestId, token) && token in services.table && r.Err? ==>
                var reg := services.table[token];
                StoppedAt(meta.InjectionsOf(reg.implementation), reg.dependencies, reg.implementation.name, r.error)
    {
      if token in instances {
        return Ok(instances[token]);
      }
      if InScope(requestScopes, requestId, token) {
        return Ok(requestScopes[requestId.value][token]);
      }
      var registration := services.Get(token);
      if registration.None? {
        return Err(NotRegistered(TokenName(token), NamesOf(services.keys)));
      }
      var reg := registration.value;
      r := CreateInstance(token, reg, requestId, meta, rank);
      if r.Ok? {
        ghost var (i1, s1) := (instances, requestScopes);
        CacheByScope(token, reg.scope, requestId, r.value);
        CachingGrows(rank, old(instances), old(requestScopes), i1, s1, instances, requestScopes, token, requestId, r.value);
        assert AddedFresh(services.table, requestId, i1, s1, instances, requestScopes);
        FreshComposes(services.table, requestId, old(instances), old(requestScopes), i1, s1, instances, requestScopes);
        WiredStable(services.table, requestId, i1, s1, instances, requestScopes,
                    meta.InjectionsOf(reg.implementation), reg.dependencies, r.value.args);
      }
    }

    /** The `switch (registration.scope)` of `resolve`: a singleton goes to the instance
        cache, a request-scoped object to the request's cache (created on demand) when
        there is a request id, a transient object nowhere. */
    method CacheByScope(token: Token, scope: Scope, requestId: Option<string>, obj: Obj)
      modifies this
      ensures services == old(services) && created == old(created)
      ensures allClassRelationMap == old(allClassRelationMap) && routesPermitAllMap == old(routesPermitAllMap)
      ensures scope == Singleton ==> instances == old(instances)[token := obj] && requestScopes == old(requestScopes)
      ensures scope == Request && Truthy(requestId) ==>
                instances == old(instances)
                && requestScopes == old(requestScopes)[requestId.value := ScopeOf(old(requestScopes), requestId.value)[token := obj]]
      ensures (scope == Transient || (scope == Request && !Truthy(requestId))) ==>
                instances == old(instances) && requestScopes == old(requestScopes)
    {
      match scope
      case Singleton =>
        instances := instances[token := obj];
      case Request =>
        if Truthy(requestId) {
          var id := requestId.value;
          if id !in requestScopes {
            requestScopes := requestScopes[id := map[]];
          }
          requestScopes := requestScopes[id := requestScopes[id][token := obj]];
        }
      case Transient =>
    }

    /** `createInstance(registration, requestId?)`: resolves each constructor slot in
        order (stopping at the first failure) and builds the object from the results. */
    method CreateInstance(token: Token, reg: Registration, requestId: Option<string>, meta: Metadata.Store,
                          ghost rank: map<Token, nat>)
      returns (r: Result<Obj, ResolveError>)
      requires Valid() && Ranked(rank, meta)
      requires token in services.table && services.table[token] == reg
      modifies this
      decreases Height(rank, token), 0
      ensures Valid()
      ensures services == old(services)
      ensures allClassRelationMap == old(allClassRelationMap) && routesPermitAllMap == old(routesPermitAllMap)
      ensures Extends(old(instances), instances) && ScopesExtend(old(requestScopes), requestScopes)
      ensures old(created) <= created
      ensures AddedBelow(rank, old(instances), instances, rank[token])
      ensures ScopesAddedBelow(rank, old(requestScopes), requestScopes, rank[token])
      ensures AddedFresh(services.table, requestId, old(instances), old(requestScopes), instances, requestScopes)
      ensures r.Ok? ==> old(created) < created
                        && r.value.Instance? && r.value.serial == created - 1 && r.value.cls == reg.implementation
                        && |r.value.args| == |reg.dependencies|
                        && Wired(services.table, instances, requestScopes, requestId, meta.InjectionsOf(reg.implementation),
                                 reg.dependencies, r.value.args)
      ensures r.Err? ==> StoppedAt(meta.InjectionsOf(reg.implementation), reg.dependencies, reg.implementation.name, r.error)
    {
      var injections := meta.InjectionsOf(reg.implementation);
      var args: seq<Obj> := [];
      var i := 0;
      while i < |reg.dependencies|
        invariant 0 <= i <= |reg.dependencies| && |args| == i
        invariant Valid() && services == old(services)
        invariant allClassRelationMap == old(allClassRelationMap) && routesPermitAllMap == old(routesPermitAllMap)
        invariant Extends(old(instances), instances) && ScopesExtend(old(requestScopes), requestScopes)
        invariant old(created) <= created
        invariant AddedBelow(rank, old(instances), instances, rank[token])
        invariant ScopesAddedBelow(rank, old(requestScopes), requestScopes, rank[token])
        invariant AddedFresh(services.table, requestId, old(instances), old(requestScopes), instances, requestScopes)
        invariant Wired(services.table, instances, requestScopes, requestId, injections, reg.dependencies, args)
      {
        var t := DependencyToken(injections, reg.dependencies, i);
        if t.None? {
          return Err(Unresolvable(i, reg.implementation.name));
        }
        ghost var (i1, s1) := (instances, requestScopes);
        assert Height(rank, t.value) <= rank[token] by {
          assert DepsBelow(rank, services.table, reg, injections, rank[token]);
        }
        var d := Resolve(t.value, requestId, meta, rank);
        GrowthComposes(rank, old(instances), old(requestScopes), i1, s1, instances, requestScopes,
                       rank[token], Height(rank, t.value));
        FreshComposes(services.table, requestId, old(instances), old(requestScopes), i1, s1, instances, requestScopes);
        if d.Err? {
          return d;
        }
        WiredStep(services.table, requestId, i1, s1, instances, requestScopes, injections, reg.dependencies, i, args, d.value);
        args := args + [d.value];
        i := i + 1;
      }
      r := Ok(Instance(created, reg.implementation, args));
      created := created + 1;
    }

    /** `beginRequestScope(requestId)`: a fresh, empty cache for the request. */
    method BeginRequestScope(requestId: string)
      requires Valid()
      modifies this
      ensures Valid()
      ensures requestScopes == old(requestScopes)[requestId := map[]]
      ensures services == old(services) && instances == old(instances) && created == old(created)
      ensures allClassRelationMap == old(allClassRelationMap) && routesPermitAllMap == old(routesPermitAllMap)
    {
      requestScopes := requestScopes[requestId := map[]];
    }

    /** `endRequestScope(requestId)`: drops the request's cache. */
    method EndRequestScope(requestId: string)
      requires Valid()
      modifies this
      ensures Valid()
      ensures requestScopes == old(requestScopes) - {requestId}
      ensures services == old(services) && instances == old(instances) && created == old(created)
      ensures allClassRelationMap == old(allClassRelationMap) && routesPermitAllMap == old(routesPermitAllMap)
    {
      requestScopes := requestScopes - {requestId};
    }

    /** `getRegisteredServices()`: one display name per registration, in registration order. */
    function GetRegisteredServices(): (names: seq<string>)
      requires Valid()
      reads this
      ensures names == NamesOf(services.keys)
      ensures |names| == |services.table|
      ensures forall t :: t in services.table ==> TokenName(t) in names
      ensures forall n :: n in names ==> exists t :: t in services.table && TokenName(t) == n
    {
      KeysCount(services.keys, services.table);
      var names := NamesOf(services.keys);
      assert forall t :: t in services.table ==> TokenName(t) in names by {
        forall t | t in services.table ensures TokenName(t) in names {
          var i :| 0 <= i < |services.keys| && services.keys[i] == t;
          assert names[i] == TokenName(t);
        }
      }
      names
    }

    /** `has(token)`: asks the registrations only, which are the tokens `getRegisteredServices`
        lists; an instance placed with `registerInstance` does not count. */
    predicate Has(token: Token)
      requires Valid()
      reads this
      ensures Has(token) <==> token in services.keys
    {
      token in services.table
    }

    /** `reset()`: forgets registrations and both caches. The class table and the
        permit-all table survive a reset. */
    method Reset()
      modifies this
      ensures Valid()
      ensures services == Empty() && instances == map[] && requestScopes == map[]
      ensures created == old(created)
      ensures allClassRelationMap == old(allClassRelationMap) && routesPermitAllMap == old(routesPermitAllMap)
    {
      services := Empty();
      instances := map[];
      requestScopes := map[];
    }

    /** `remove(token)`: drops the registration and the cached singleton; request caches keep theirs. */
    method Remove(token: Token)
      requires Valid()
      modifies this
      ensures Valid()
      ensures services == old(services).Delete(token) && instances == old(instances) - {token}
      ensures requestScopes == old(requestScopes) && created == old(created)
      ensures allClassRelationMap == old(allClassRelationMap) && routesPermitAllMap == old(routesPermitAllMap)
    {
      services := services.Delete(token);
      instances := instances - {token};
    }

    /** `registerAllClass(target)`: the first class seen under a name keeps it. */
    method RegisterAllClass(target: ClassRef)
      modifies this
      ensures old(target.name in allClassRelationMap) ==> allClassRelationMap == old(allClassRelationMap)
      ensures old(target.name !in allClassRelationMap) ==> allClassRelationMap == old(allClassRelationMap)[target.name := target]
      ensures services == old(services) && instances == old(instances) && requestScopes == old(requestScopes)
      ensures created == old(created) && routesPermitAllMap == old(routesPermitAllMap)
    {
      if target.name in allClassRelationMap {
        return;
      }
      allClassRelationMap := allClassRelationMap[target.name := target];
    }

    /** `registerPermitAll(token)`: refused exactly when the token is the name of an
        already scanned class; otherwise the token is marked public. */
    method RegisterPermitAll(token: string) returns (err: Option<string>)
      modifies this
      ensures err.Some? <==> token in old(allClassRelationMap)
      ensures err.Some? ==> err.value == "routesPermit " + token + " is already registered"
                            && routesPermitAllMap == old(routesPermitAllMap)
      ensures err.None? ==> routesPermitAllMap == old(routesPermitAllMap)[token := true]
      ensures services == old(services) && instances == old(instances) && requestScopes == old(requestScopes)
      ensures created == old(created) && allClassRelationMap == old(allClassRelationMap)
    {
      if token in allClassRelationMap {
        return Some("routesPermit " + token + " is already registered");
      }
      routesPermitAllMap := routesPermitAllMap[token := true];
      return None;
    }

    /** `checkRoutesPermitAll(token)`: `true` once registered, `undefined` otherwise. */
    function CheckRoutesPermitAll(token: string): (r: Option<bool>)
      reads this
      ensures r.Some? <==> token in routesPermitAllMap
      ensures r.Some? ==> r.value == routesPermitAllMap[token]
    {
      if token in routesPermitAllMap then Some(routesPermitAllMap[token]) else None
    }
  }
}
