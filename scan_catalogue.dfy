/** What the two service scanners share: the catalogue entry, the loaded-module
    inputs that replace `require`, the classification of an export by its
    metadata, the method lists, and the name- and type-based lookups. */
module ScanCatalogue {
  import opened Base
  import opened Runtime
  import opened Metadata
  import opened OrderedMaps
  import DI

  /** `ScannedService.type`; `ComponentKind` is declared but never produced. */
  datatype Kind = RpcKind | ControllerKind | ServiceKind | ComponentKind

  /** One entry of `ScannedService.methods`: an `rpc:methods` record, a `controller:routes`
      record, or a `{name, originalName}` pair found on the prototype chain. */
  datatype MethodInfo = RpcEntry(rpc: RpcMethodMeta) | RouteEntry(route: RouteMeta) | PlainEntry(plain: string)
  {
    /** `m.name`. */
    function Name(): string {
      match this
      case RpcEntry(r) => r.name
      case RouteEntry(r) => r.name
      case PlainEntry(n) => n
    }

    /** `m.originalName`; route records have none. */
    function OriginalName(): Option<string> {
      match this
      case RpcEntry(r) => Some(r.originalName)
      case RouteEntry(_) => None
      case PlainEntry(n) => Some(n)
    }

    /** `m.name === q || m.originalName === q`. */
    predicate Matches(q: string) {
      Name() == q || OriginalName() == Some(q)
    }
  }

  /** `ScannedService`. */
  datatype ScannedService = ScannedService(name: string, instance: Obj, methods: seq<MethodInfo>, kind: Kind)

  /** A value exported by a module: a function (class) or anything else. */
  datatype Export = ClassExport(cls: ClassRef) | ValueExport

  /** A source file as `require` sees it: its exports in order, or a load error. */
  datatype SourceFile = Loaded(exports: seq<(string, Export)>) | LoadFailed(error: string)

  /** A configured directory: missing on disk, or the files the glob selects in it. */
  datatype SourceDir = Missing | Present(files: seq<SourceFile>)

  /** Every one of `files` loads. */
  predicate FilesLoad(files: seq<SourceFile>) {
    forall f :: 0 <= f < |files| ==> files[f].Loaded?
  }

  /** `getServiceType(Class)`: rpc metadata first, then controller metadata, then a registration
      under the class itself; otherwise the export is skipped. */
  function Classify(m: MetaState, registered: map<Token, DI.Registration>, cls: ClassRef): (k: Option<Kind>)
    ensures k == Some(RpcKind) <==> cls in m.rpcService
    ensures k == Some(ControllerKind) <==> cls !in m.rpcService && cls in m.controller
    ensures k == Some(ServiceKind) <==> cls !in m.rpcService && cls !in m.controller && ClassToken(cls) in registered
    ensures k != Some(ComponentKind)
  {
    if cls in m.rpcService then Some(RpcKind)
    else if cls in m.controller then Some(ControllerKind)
    else if ClassToken(cls) in registered then Some(ServiceKind)
    else None
  }

  /** The classes among a module's exports, in export order. */
  function ClassesOf(exports: seq<(string, Export)>): seq<ClassRef>
    decreases |exports|
  {
    if |exports| == 0 then []
    else if exports[0].1.ClassExport? then [exports[0].1.cls] + ClassesOf(exports[1..])
    else ClassesOf(exports[1..])
  }

  /** The methods of one prototype level: function-valued own properties other than 'constructor'. */
  function LevelMethods(props: seq<Prop>): (r: seq<MethodInfo>)
    ensures forall m :: m in r <==> exists p :: p in props && p.isFunction && p.name != "constructor" && m == PlainEntry(p.name)
    decreases |props|
  {
    if |props| == 0 then []
    else
      var rest := LevelMethods(props[1..]);
      assert forall p :: p in props[1..] ==> p in props;
      if props[0].isFunction && props[0].name != "constructor" then [PlainEntry(props[0].name)] + rest else rest
  }

  /** The methods of a prototype chain, most-derived level first. */
  function PublicMethods(levels: seq<seq<Prop>>): seq<MethodInfo>
    decreases |levels|
  {
    if |levels| == 0 then [] else LevelMethods(levels[0]) + PublicMethods(levels[1..])
  }

  /** Every function-valued own property except 'constructor', of every level up to
      `Object.prototype`, is listed, and nothing else is. */
  lemma {:induction false} PublicMethodsExactly(levels: seq<seq<Prop>>, name: string)
    ensures PlainEntry(name) in PublicMethods(levels) <==>
              exists l, p :: 0 <= l < |levels| && p in levels[l] && p.isFunction && p.name != "constructor" && p.name == name
    ensures forall m :: m in PublicMethods(levels) ==> m.PlainEntry?
    decreases |levels|
  {
    if |levels| > 0 {
      PublicMethodsExactly(levels[1..], name);
      if PlainEntry(name) in PublicMethods(levels[1..]) {
        var l, p :| 0 <= l < |levels[1..]| && p in levels[1..][l] && p.isFunction && p.name != "constructor" && p.name == name;
        assert p in levels[l + 1];
      }
      if exists l, p :: 0 <= l < |levels| && p in levels[l] && p.isFunction && p.name != "constructor" && p.name == name {
        var l, p :| 0 <= l < |levels| && p in levels[l] && p.isFunction && p.name != "constructor" && p.name == name;
        if l > 0 {
          assert p in levels[1..][l - 1];
        }
      }
    }
  }

  /** An overriding method is listed once per level that defines it: the list is the levels' lists, in order. */
  lemma {:induction false} PublicMethodsPerLevel(upper: seq<seq<Prop>>, lower: seq<seq<Prop>>)
    ensures PublicMethods(upper + lower) == PublicMethods(upper) + PublicMethods(lower)
    decreases |upper|
  {
    if |upper| > 0 {
      assert (upper + lower)[1..] == upper[1..] + lower;
      PublicMethodsPerLevel(upper[1..], lower);
    } else {
      assert upper + lower == lower;
    }
  }

  /** `extractPublicMethods(ServiceClass)`: walks the prototype chain pushing each qualifying name. */
  method ExtractPublicMethods(cls: ClassRef) returns (methods: seq<MethodInfo>)
    ensures methods == PublicMethods(cls.proto)
  {
    methods := [];
    var level := 0;
    while level < |cls.proto|
      invariant 0 <= level <= |cls.proto|
      invariant methods + PublicMethods(cls.proto[level..]) == PublicMethods(cls.proto)
    {
      var props := cls.proto[level];
      var k := 0;
      while k < |props|
        invariant 0 <= k <= |props|
        invariant methods + LevelMethods(props[k..]) + PublicMethods(cls.proto[level + 1..]) == PublicMethods(cls.proto)
      {
        if props[k].name != "constructor" && props[k].isFunction {
          methods := methods + [PlainEntry(props[k].name)];
        }
        assert props[k..][1..] == props[k + 1..];
        k := k + 1;
      }
      assert props[k..] == [];
      assert cls.proto[level..][1..] == cls.proto[level + 1..];
      level := level + 1;
    }
    assert cls.proto[level..] == [];
  }

  /** The method list a scanner records for a class of kind `k`. */
  function MethodsFor(m: MetaState, cls: ClassRef, k: Kind): seq<MethodInfo>
  {
    match k
    case RpcKind => RpcInfos(m.RpcMethodsOf(cls))
    case ControllerKind => RouteInfos(m.RoutesOf(cls))
    case _ => PublicMethods(cls.proto)
  }

  function RpcInfos(ms: seq<RpcMethodMeta>): seq<MethodInfo>
    decreases |ms|
  {
    if |ms| == 0 then [] else [RpcEntry(ms[0])] + RpcInfos(ms[1..])
  }

  function RouteInfos(rs: seq<RouteMeta>): seq<MethodInfo>
    decreases |rs|
  {
    if |rs| == 0 then [] else [RouteEntry(rs[0])] + RouteInfos(rs[1..])
  }

  /** `methods.find(m => m.name === q || m.originalName === q)`: the first match. */
  function FindMethod(methods: seq<MethodInfo>, q: string): (r: Option<MethodInfo>)
    ensures r.None? <==> forall m :: m in methods ==> !m.Matches(q)
    ensures r.Some? ==> exists i :: 0 <= i < |methods| && methods[i] == r.value && r.value.Matches(q)
                                    && forall j :: 0 <= j < i ==> !methods[j].Matches(q)
    decreases |methods|
  {
    if |methods| == 0 then None
    else if methods[0].Matches(q) then Some(methods[0])
    else
      var r := FindMethod(methods[1..], q);
      assert forall m :: m in methods[1..] ==> m in methods;
      if r.Some? then
        var i :| 0 <= i < |methods[1..]| && methods[1..][i] == r.value && r.value.Matches(q)
                 && forall j :: 0 <= j < i ==> !methods[1..][j].Matches(q);
        assert methods[i + 1] == r.value;
        assert forall j :: 1 <= j < i + 1 ==> methods[j] == methods[1..][j - 1];
        r
      else r
  }

  /** `.filter(service => service.type === k)`, order kept. */
  function OfKind(services: seq<ScannedService>, k: Kind): (r: seq<ScannedService>)
    ensures forall s :: s in r <==> s in services && s.kind == k
    ensures |r| <= |services|
    decreases |services|
  {
    if |services| == 0 then []
    else
      assert forall s :: s in services[1..] ==> s in services;
      assert forall s :: s in services ==> s == services[0] || s in services[1..];
      if services[0].kind == k then [services[0]] + OfKind(services[1..], k) else OfKind(services[1..], k)
  }

  /** Filtering distributes over concatenation, so the kept entries keep their relative order:
      a single entry is kept exactly when it has the kind. */
  lemma {:induction false} OfKindAppend(a: seq<ScannedService>, b: seq<ScannedService>, k: Kind)
    ensures OfKind(a + b, k) == OfKind(a, k) + OfKind(b, k)
    ensures forall s :: OfKind([s], k) == if s.kind == k then [s] else []
    decreases |a|
  {
    if |a| > 0 {
      assert (a + b)[1..] == a[1..] + b;
      OfKindAppend(a[1..], b, k);
    } else {
      assert a + b == b;
    }
    forall s
      ensures OfKind([s], k) == if s.kind == k then [s] else []
    {
      assert [s][1..] == [];
    }
  }

  /** Every entry is filed under its own name. */
  ghost predicate Keyed(catalogue: OMap<string, ScannedService>) {
    forall n :: n in catalogue.table ==> catalogue.table[n].name == n
  }

  /** The catalogue after `services.set(s.name, s)` for each entry in turn. */
  function SetAll(catalogue: OMap<string, ScannedService>, entries: seq<ScannedService>): (r: OMap<string, ScannedService>)
    requires catalogue.Valid()
    ensures r.Valid()
    ensures Keyed(catalogue) ==> Keyed(r)
    decreases |entries|
  {
    if |entries| == 0 then catalogue
    else SetAll(catalogue.Set(entries[0].name, entries[0]), entries[1..])
  }

  lemma {:induction false} SetAllSnoc(catalogue: OMap<string, ScannedService>, entries: seq<ScannedService>, e: ScannedService)
    requires catalogue.Valid()
    ensures SetAll(catalogue, entries + [e]) == SetAll(catalogue, entries).Set(e.name, e)
    decreases |entries|
  {
    if |entries| > 0 {
      assert (entries + [e])[1..] == entries[1..] + [e];
      SetAllSnoc(catalogue.Set(entries[0].name, entries[0]), entries[1..], e);
    }
  }

  /** Keyed by name: a name no entry carries keeps whatever the catalogue held for it. */
  lemma {:induction false} SetAllKeepsOthers(catalogue: OMap<string, ScannedService>, entries: seq<ScannedService>, name: string)
    requires catalogue.Valid()
    requires forall i :: 0 <= i < |entries| ==> entries[i].name != name
    ensures name in SetAll(catalogue, entries).table <==> name in catalogue.table
    ensures name in catalogue.table ==> SetAll(catalogue, entries).table[name] == catalogue.table[name]
    decreases |entries|
  {
    if |entries| > 0 {
      var next := catalogue.Set(entries[0].name, entries[0]);
      assert forall j :: 0 <= j < |entries[1..]| ==> entries[1..][j] == entries[j + 1];
      SetAllKeepsOthers(next, entries[1..], name);
    }
  }

  /** Last write wins: after the scan, the name of an entry no later entry repeats maps to that entry. */
  lemma {:induction false} SetAllLastWins(catalogue: OMap<string, ScannedService>, entries: seq<ScannedService>, i: nat)
    requires catalogue.Valid()
    requires i < |entries| && forall j :: i < j < |entries| ==> entries[j].name != entries[i].name
    ensures entries[i].name in SetAll(catalogue, entries).table
    ensures SetAll(catalogue, entries).table[entries[i].name] == entries[i]
    decreases |entries|
  {
    var next := catalogue.Set(entries[0].name, entries[0]);
    if i == 0 {
      assert forall j :: 0 <= j < |entries[1..]| ==> entries[1..][j] == entries[j + 1];
      SetAllKeepsOthers(next, entries[1..], entries[0].name);
    } else {
      assert entries[1..][i - 1] == entries[i];
      assert forall j :: i - 1 < j < |entries[1..]| ==> entries[1..][j] == entries[j + 1];
      SetAllLastWins(next, entries[1..], i - 1);
    }
  }

  lemma {:induction false} ClassesOfAppend(a: seq<(string, Export)>, b: seq<(string, Export)>)
    ensures ClassesOf(a + b) == ClassesOf(a) + ClassesOf(b)
    decreases |a|
  {
    if |a| == 0 {
      assert a + b == b;
    } else {
      assert (a + b)[1..] == a[1..] + b;
      ClassesOfAppend(a[1..], b);
    }
  }

  /** What a scan records about a class, apart from the instance: name, methods and kind. */
  datatype Entry = Entry(name: string, methods: seq<MethodInfo>, kind: Kind)

  function Describe(s: ScannedService): Entry {
    Entry(s.name, s.methods, s.kind)
  }

  function Described(found: seq<ScannedService>): (r: seq<Entry>)
    decreases |found|
  {
    if |found| == 0 then [] else [Describe(found[0])] + Described(found[1..])
  }

  lemma {:induction false} DescribedAppend(a: seq<ScannedService>, b: seq<ScannedService>)
    ensures Described(a + b) == Described(a) + Described(b)
    decreases |a|
  {
    if |a| == 0 {
      assert a + b == b;
    } else {
      assert (a + b)[1..] == a[1..] + b;
      DescribedAppend(a[1..], b);
    }
  }

  /** The entry for class `cls` of kind `k`: the catalogue name is `rpcPrefix` and the `rpc:service`
      name for an rpc service, the `controller:metadata` name for a controller, the class name
      otherwise; the methods are those `MethodsFor` lists. */
  function Expected(m: MetaState, cls: ClassRef, k: Kind, rpcPrefix: string): (e: Entry)
    requires k == RpcKind ==> cls in m.rpcService
    requires k == ControllerKind ==> cls in m.controller
    ensures e.kind == k && e.methods == MethodsFor(m, cls, k)
  {
    var name := match k
      case RpcKind => rpcPrefix + m.rpcService[cls].name
      case ControllerKind => m.controller[cls].name
      case _ => cls.name;
    Entry(name, MethodsFor(m, cls, k), k)
  }

  /** The entries a scan of `classes` records, in order: one per class `Classify` accepts. */
  function ClassEntries(m: MetaState, registered: map<Token, DI.Registration>, rpcPrefix: string, classes: seq<ClassRef>): seq<Entry>
    decreases |classes|
  {
    if |classes| == 0 then []
    else if Classify(m, registered, classes[0]).None? then ClassEntries(m, registered, rpcPrefix, classes[1..])
    else [Expected(m, classes[0], Classify(m, registered, classes[0]).value, rpcPrefix)] + ClassEntries(m, registered, rpcPrefix, classes[1..])
  }

  lemma {:induction false} ClassEntriesAppend(m: MetaState, registered: map<Token, DI.Registration>, rpcPrefix: string,
                                              a: seq<ClassRef>, b: seq<ClassRef>)
    ensures ClassEntries(m, registered, rpcPrefix, a + b) == ClassEntries(m, registered, rpcPrefix, a) + ClassEntries(m, registered, rpcPrefix, b)
    decreases |a|
  {
    if |a| == 0 {
      assert a + b == b;
    } else {
      assert (a + b)[1..] == a[1..] + b;
      ClassEntriesAppend(m, registered, rpcPrefix, a[1..], b);
    }
  }

  /** Scanning class `i` extends the entries so far by that class's entry, if it has one,
      and they remain a prefix of the whole scan's entries. */
  lemma ClassEntriesStep(m: MetaState, registered: map<Token, DI.Registration>, rpcPrefix: string, classes: seq<ClassRef>, i: nat)
    requires i < |classes|
    ensures Classify(m, registered, classes[i]).Some? ==>
              ClassEntries(m, registered, rpcPrefix, classes[..i + 1]) ==
              ClassEntries(m, registered, rpcPrefix, classes[..i]) + [Expected(m, classes[i], Classify(m, registered, classes[i]).value, rpcPrefix)]
    ensures Classify(m, registered, classes[i]).None? ==>
              ClassEntries(m, registered, rpcPrefix, classes[..i + 1]) == ClassEntries(m, registered, rpcPrefix, classes[..i])
    ensures ClassEntries(m, registered, rpcPrefix, classes[..i + 1]) <= ClassEntries(m, registered, rpcPrefix, classes)
  {
    assert classes[..i + 1] == classes[..i] + [classes[i]];
    ClassEntriesAppend(m, registered, rpcPrefix, classes[..i], [classes[i]]);
    assert [classes[i]][1..] == [];
    assert classes == classes[..i + 1] + classes[i + 1..];
    ClassEntriesAppend(m, registered, rpcPrefix, classes[..i + 1], classes[i + 1..]);
  }

  /** `getService(name)`: the entry filed under the name, which carries that name. */
  function GetService(catalogue: OMap<string, ScannedService>, name: string): (r: Option<ScannedService>)
    requires Keyed(catalogue)
    ensures r.Some? <==> name in catalogue.table
    ensures r.Some? ==> r.value.name == name && r.value == catalogue.table[name]
  {
    catalogue.Get(name)
  }

  /** `getAllServices()`: one entry per name, in the order the names were first filed. */
  function GetAllServices(catalogue: OMap<string, ScannedService>): (r: seq<ScannedService>)
    requires catalogue.Valid()
    ensures |r| == |catalogue.table| == |catalogue.keys|
    ensures forall i :: 0 <= i < |catalogue.keys| ==> r[i] == catalogue.table[catalogue.keys[i]]
    ensures forall s :: s in r <==> exists n :: n in catalogue.table && catalogue.table[n] == s
  {
    var r := catalogue.Values();
    assert |r| == |catalogue.table| by { KeysCount(catalogue.keys, catalogue.table); }
    assert forall n :: n in catalogue.table ==> exists i :: 0 <= i < |catalogue.keys| && catalogue.keys[i] == n;
    r
  }

  /** `getRpcServices()`: the rpc entries and nothing else. */
  function GetRpcServices(catalogue: OMap<string, ScannedService>): (r: seq<ScannedService>)
    requires catalogue.Valid()
    ensures forall s :: s in r <==> s.kind == RpcKind && exists n :: n in catalogue.table && catalogue.table[n] == s
  {
    OfKind(GetAllServices(catalogue), RpcKind)
  }

  /** `getControllers()`: the controller entries and nothing else. */
  function GetControllers(catalogue: OMap<string, ScannedService>): (r: seq<ScannedService>)
    requires catalogue.Valid()
    ensures forall s :: s in r <==> s.kind == ControllerKind && exists n :: n in catalogue.table && catalogue.table[n] == s
  {
    OfKind(GetAllServices(catalogue), ControllerKind)
  }

  /** `getMethod(service, method)`: undefined for an unknown service; otherwise the first
      method whose name or original name is the one asked for. */
  function GetMethod(catalogue: OMap<string, ScannedService>, serviceName: string, methodName: string): (r: Option<MethodInfo>)
    ensures serviceName !in catalogue.table ==> r.None?
    ensures serviceName in catalogue.table ==> r == FindMethod(catalogue.table[serviceName].methods, methodName)
    ensures r.Some? ==> serviceName in catalogue.table && r.value in catalogue.table[serviceName].methods && r.value.Matches(methodName)
  {
    match catalogue.Get(serviceName)
    case None => None
    case Some(service) => FindMethod(service.methods, methodName)
  }
}
