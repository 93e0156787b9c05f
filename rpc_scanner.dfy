/** The service scanner of the `rpc/` tree: a two-phase scan.
    Phase one loads every selected file, records each function export in the
    container's class table, and gathers the exports of all files into one map
    keyed by export name, where a later file's export replaces an earlier one of
    the same name. A file that fails to load aborts the whole scan before phase two.
    Phase two walks that map in key order, classifies each class by its metadata,
    and resolves every accepted one from the container by its service name. */
module RpcScanner {
  import opened Base
  import opened Runtime
  import opened Metadata
  import opened OrderedMaps
  import opened ScanCatalogue
  import DI

  /** `Map<string, any>` from export name to exported class. */
  type ClassMap = OMap<string, ClassRef>

  // ---------------------------------------------------------------------------
  // Phase one, as values

  /** The files the glob selects, directory after directory; a missing directory adds none. */
  function SelectedFiles(dirs: seq<SourceDir>): seq<SourceFile>
    decreases |dirs|
  {
    if |dirs| == 0 then []
    else if dirs[0].Missing? then SelectedFiles(dirs[1..])
    else dirs[0].files + SelectedFiles(dirs[1..])
  }

  /** `classMap.set(exportName, ExportClass)` for each function export, in export order, onto `acc`. */
  function ExportClasses(acc: ClassMap, exports: seq<(string, Export)>): (r: ClassMap)
    requires acc.Valid()
    ensures r.Valid()
    decreases |exports|
  {
    if |exports| == 0 then acc
    else if exports[0].1.ClassExport? then ExportClasses(acc.Set(exports[0].0, exports[0].1.cls), exports[1..])
    else ExportClasses(acc, exports[1..])
  }

  /** `acc.set(k, table[k])` for each of `keys`, in order. */
  function SetEach(acc: ClassMap, keys: seq<string>, table: map<string, ClassRef>): (r: ClassMap)
    requires acc.Valid()
    requires forall k :: k in keys ==> k in table
    ensures r.Valid()
    decreases |keys|
  {
    if |keys| == 0 then acc
    else SetEach(acc.Set(keys[0], table[keys[0]]), keys[1..], table)
  }

  /** `for (const [k, v] of b) a.set(k, v)`. */
  function Merge(a: ClassMap, b: ClassMap): (r: ClassMap)
    requires a.Valid() && b.Valid()
    ensures r.Valid()
  {
    SetEach(a, b.keys, b.table)
  }

  /** `registerAllClass` on each function export, in order: a class name keeps the first class recorded under it. */
  function Recorded(rel: map<string, ClassRef>, exports: seq<(string, Export)>): map<string, ClassRef>
    decreases |exports|
  {
    if |exports| == 0 then rel
    else if exports[0].1.ClassExport? && exports[0].1.cls.name !in rel then
      Recorded(rel[exports[0].1.cls.name := exports[0].1.cls], exports[1..])
    else Recorded(rel, exports[1..])
  }

  /** The class table after phase one has run over `files`, up to the first file that fails to load. */
  function RecordedFiles(rel: map<string, ClassRef>, files: seq<SourceFile>): map<string, ClassRef>
    decreases |files|
  {
    if |files| == 0 then rel
    else if files[0].LoadFailed? then rel
    else RecordedFiles(Recorded(rel, files[0].exports), files[1..])
  }

  /** The outcome of phase one over `files`: the merged export map, or the first load error. */
  function Collect(acc: ClassMap, files: seq<SourceFile>): (r: Result<ClassMap, string>)
    requires acc.Valid()
    ensures r.Ok? ==> r.value.Valid()
    decreases |files|
  {
    if |files| == 0 then Ok(acc)
    else if files[0].LoadFailed? then Err(files[0].error)
    else Collect(Merge(acc, ExportClasses(Empty(), files[0].exports)), files[1..])
  }

  // ---------------------------------------------------------------------------
  // Phase one, what it means

  /** Setting each key of `keys` overlays those entries of `table` on `acc`; keys already present keep their place. */
  lemma {:induction false} SetEachTable(acc: ClassMap, keys: seq<string>, table: map<string, ClassRef>)
    requires acc.Valid()
    requires forall k :: k in keys ==> k in table
    ensures forall k :: k in SetEach(acc, keys, table).table <==> k in acc.table || k in keys
    ensures forall k :: k in keys ==> SetEach(acc, keys, table).table[k] == table[k]
    ensures forall k :: k in acc.table && k !in keys ==> SetEach(acc, keys, table).table[k] == acc.table[k]
    ensures acc.keys <= SetEach(acc, keys, table).keys
    decreases |keys|
  {
    if |keys| > 0 {
      var next := acc.Set(keys[0], table[keys[0]]);
      SetEachTable(next, keys[1..], table);
      assert forall k :: k in keys <==> k == keys[0] || k in keys[1..];
    }
  }

  /** Merging `b` into `a`: every name of `b` now maps to `b`'s class, every other name keeps
      `a`'s, and `a`'s names keep their positions. */
  lemma MergeLaterWins(a: ClassMap, b: ClassMap)
    requires a.Valid() && b.Valid()
    ensures Merge(a, b).table == a.table + b.table
    ensures a.keys <= Merge(a, b).keys
  {
    SetEachTable(a, b.keys, b.table);
  }

  /** A name no function export carries keeps its lookup in the module's map. */
  lemma {:induction false} ExportClassesKeeps(acc: ClassMap, exports: seq<(string, Export)>, name: string)
    requires acc.Valid()
    requires forall j :: 0 <= j < |exports| && exports[j].1.ClassExport? ==> exports[j].0 != name
    ensures name in ExportClasses(acc, exports).table <==> name in acc.table
    ensures name in acc.table ==> ExportClasses(acc, exports).table[name] == acc.table[name]
    decreases |exports|
  {
    if |exports| > 0 {
      var next := if exports[0].1.ClassExport? then acc.Set(exports[0].0, exports[0].1.cls) else acc;
      ExportClassesKeeps(next, exports[1..], name);
    }
  }

  /** The module's map sends the export name of a function export to that class, when no
      other function export of the module has the same name. */
  lemma {:induction false} ExportClassesLookup(acc: ClassMap, exports: seq<(string, Export)>, i: nat)
    requires acc.Valid()
    requires i < |exports| && exports[i].1.ClassExport?
    requires forall j :: 0 <= j < |exports| && j != i && exports[j].1.ClassExport? ==> exports[j].0 != exports[i].0
    ensures exports[i].0 in ExportClasses(acc, exports).table
    ensures ExportClasses(acc, exports).table[exports[i].0] == exports[i].1.cls
    decreases |exports|
  {
    if i == 0 {
      ExportClassesKeeps(acc.Set(exports[0].0, exports[0].1.cls), exports[1..], exports[0].0);
    } else {
      var next := if exports[0].1.ClassExport? then acc.Set(exports[0].0, exports[0].1.cls) else acc;
      ExportClassesLookup(next, exports[1..], i - 1);
    }
  }

  /** `registerAllClass` never replaces a recorded class, and records every new class name. */
  lemma {:induction false} RecordedFirstWins(rel: map<string, ClassRef>, exports: seq<(string, Export)>, name: string)
    ensures name in rel ==> name in Recorded(rel, exports) && Recorded(rel, exports)[name] == rel[name]
    ensures name in Recorded(rel, exports) <==>
              name in rel || exists j :: 0 <= j < |exports| && exports[j].1.ClassExport? && exports[j].1.cls.name == name
    decreases |exports|
  {
    if |exports| > 0 {
      var next := if exports[0].1.ClassExport? && exports[0].1.cls.name !in rel then rel[exports[0].1.cls.name := exports[0].1.cls] else rel;
      RecordedFirstWins(next, exports[1..], name);
      if exists j :: 0 <= j < |exports[1..]| && exports[1..][j].1.ClassExport? && exports[1..][j].1.cls.name == name {
        var j :| 0 <= j < |exports[1..]| && exports[1..][j].1.ClassExport? && exports[1..][j].1.cls.name == name;
        assert exports[j + 1] == exports[1..][j];
      }
      if exists j :: 0 <= j < |exports| && exports[j].1.ClassExport? && exports[j].1.cls.name == name {
        var j :| 0 <= j < |exports| && exports[j].1.ClassExport? && exports[j].1.cls.name == name;
        if j > 0 {
          assert exports[1..][j - 1] == exports[j];
        }
      }
    }
  }

  /** Phase one fails exactly when some selected file fails to load, and then with the first such file's error. */
  lemma {:induction false} CollectFails(acc: ClassMap, files: seq<SourceFile>)
    requires acc.Valid()
    ensures Collect(acc, files).Ok? <==> FilesLoad(files)
    ensures Collect(acc, files).Err? ==>
              exists i :: 0 <= i < |files| && FilesLoad(files[..i]) && files[i].LoadFailed?
                          && Collect(acc, files).error == files[i].error
    decreases |files|
  {
    if |files| > 0 {
      if files[0].LoadFailed? {
        assert files[..0] == [];
      } else {
        var next := Merge(acc, ExportClasses(Empty(), files[0].exports));
        CollectFails(next, files[1..]);
        if Collect(acc, files).Err? {
          var i :| 0 <= i < |files[1..]| && FilesLoad(files[1..][..i]) && files[1..][i].LoadFailed?
                   && Collect(next, files[1..]).error == files[1..][i].error;
          assert files[..i + 1] == [files[0]] + files[1..][..i];
          assert FilesLoad(files[..i + 1]);
        }
        if FilesLoad(files[1..]) {
          assert forall f :: 0 <= f < |files| ==> f == 0 || files[f] == files[1..][f - 1];
        } else {
          var f :| 0 <= f < |files[1..]| && !files[1..][f].Loaded?;
          assert files[f + 1] == files[1..][f];
        }
      }
    }
  }

  // ---------------------------------------------------------------------------
  // Phase one, as the scanner runs it

  /** The loop of `scanServices` that gathers the glob results of every existing directory. */
  method SelectFiles(dirs: seq<SourceDir>) returns (files: seq<SourceFile>)
    ensures files == SelectedFiles(dirs)
  {
    files := [];
    var d := 0;
    while d < |dirs|
      invariant 0 <= d <= |dirs|
      invariant files + SelectedFiles(dirs[d..]) == SelectedFiles(dirs)
    {
      assert dirs[d..][1..] == dirs[d + 1..];
      if dirs[d].Present? {
        files := files + dirs[d].files;
      }
      d := d + 1;
    }
  }

  /** `scanFileClass(filePath)`: a module that fails to load is an error before anything is
      recorded; otherwise every function export is recorded in the class table and put in the map. */
  method ScanFileClass(c: DI.DIContainer, file: SourceFile) returns (r: Result<ClassMap, string>)
    modifies c
    ensures c.services == old(c.services) && c.instances == old(c.instances) && c.requestScopes == old(c.requestScopes)
    ensures c.created == old(c.created) && c.routesPermitAllMap == old(c.routesPermitAllMap)
    ensures file.LoadFailed? ==> r == Err(file.error) && c.allClassRelationMap == old(c.allClassRelationMap)
    ensures file.Loaded? ==>
              r == Ok(ExportClasses(Empty(), file.exports))
              && c.allClassRelationMap == Recorded(old(c.allClassRelationMap), file.exports)
  {
    if file.LoadFailed? {
      return Err(file.error);
    }
    var exports := file.exports;
    var classMap: ClassMap := Empty();
    var i := 0;
    while i < |exports|
      invariant 0 <= i <= |exports|
      invariant classMap.Valid() && ExportClasses(classMap, exports[i..]) == ExportClasses(Empty(), exports)
      invariant Recorded(c.allClassRelationMap, exports[i..]) == Recorded(old(c.allClassRelationMap), exports)
      invariant c.services == old(c.services) && c.instances == old(c.instances) && c.requestScopes == old(c.requestScopes)
      invariant c.created == old(c.created) && c.routesPermitAllMap == old(c.routesPermitAllMap)
    {
      assert exports[i..][1..] == exports[i + 1..];
      if exports[i].1.ClassExport? {
        c.RegisterAllClass(exports[i].1.cls);
        classMap := classMap.Set(exports[i].0, exports[i].1.cls);
      }
      i := i + 1;
    }
    return Ok(classMap);
  }

  /** `for (const [exportName, ExportClass] of classMap) allClassMap.set(exportName, ExportClass)`. */
  method MergeInto(all: ClassMap, classMap: ClassMap) returns (r: ClassMap)
    requires all.Valid() && classMap.Valid()
    ensures r == Merge(all, classMap)
  {
    r := all;
    var k := 0;
    while k < |classMap.keys|
      invariant 0 <= k <= |classMap.keys|
      invariant r.Valid() && SetEach(r, classMap.keys[k..], classMap.table) == Merge(all, classMap)
    {
      assert classMap.keys[k..][1..] == classMap.keys[k + 1..];
      r := r.Set(classMap.keys[k], classMap.table[classMap.keys[k]]);
      k := k + 1;
    }
  }

  /** Phase one over the selected files: each file is scanned and its map merged, and
      the first file that fails to load ends the scan with its error. */
  method CollectClasses(c: DI.DIContainer, files: seq<SourceFile>) returns (r: Result<ClassMap, string>)
    modifies c
    ensures c.services == old(c.services) && c.instances == old(c.instances) && c.requestScopes == old(c.requestScopes)
    ensures c.created == old(c.created) && c.routesPermitAllMap == old(c.routesPermitAllMap)
    ensures r == Collect(Empty(), files)
    ensures c.allClassRelationMap == RecordedFiles(old(c.allClassRelationMap), files)
  {
    var all: ClassMap := Empty();
    var f := 0;
    while f < |files|
      invariant 0 <= f <= |files|
      invariant all.Valid() && Collect(all, files[f..]) == Collect(Empty(), files)
      invariant RecordedFiles(c.allClassRelationMap, files[f..]) == RecordedFiles(old(c.allClassRelationMap), files)
      invariant c.services == old(c.services) && c.instances == old(c.instances) && c.requestScopes == old(c.requestScopes)
      invariant c.created == old(c.created) && c.routesPermitAllMap == old(c.routesPermitAllMap)
    {
      assert files[f..][1..] == files[f + 1..];
      var classMap := ScanFileClass(c, files[f]);
      if classMap.Err? {
        return classMap;
      }
      all := MergeInto(all, classMap.value);
      f := f + 1;
    }
    return Ok(all);
  }

  // ---------------------------------------------------------------------------
  // Phase two

  /** `registerService(ServiceClass, exportName, serviceType)`: the entry is named after the
      `rpc:service` name (no prefix), the controller name or the class name, and its
      instance is resolved from the container under that name. */
  method RegisterService(c: DI.DIContainer, meta: Store, cls: ClassRef, k: Kind, ghost rank: map<Token, nat>)
    returns (r: Result<ScannedService, string>)
    requires c.Valid() && c.Ranked(rank, meta)
    requires Classify(meta.State(), c.services.table, cls) == Some(k)
    modifies c
    ensures c.Valid() && c.Ranked(rank, meta) && c.services == old(c.services)
    ensures c.allClassRelationMap == old(c.allClassRelationMap) && c.routesPermitAllMap == old(c.routesPermitAllMap)
    ensures DI.Extends(old(c.instances), c.instances) && DI.ScopesExtend(old(c.requestScopes), c.requestScopes)
    ensures r.Ok? ==> Describe(r.value) == Expected(meta.State(), cls, k, "")
    // the catalogued instance is what the container now holds for the name, as its scope dictates
    ensures r.Ok? ==> DI.Settled(c.services.table, c.instances, c.requestScopes, None,
                                 Named(Expected(meta.State(), cls, k, "").name), r.value.instance)
    // the lookup is by service name: a class registered only under itself is not found
    ensures Named(Expected(meta.State(), cls, k, "").name) !in old(c.instances) &&
            Named(Expected(meta.State(), cls, k, "").name) !in c.services.table ==>
              r == Err(DI.NotRegistered(Expected(meta.State(), cls, k, "").name, DI.NamesOf(c.services.keys)).Message())
  {
    var m := meta.State();
    var name := Expected(m, cls, k, "").name;
    var methods: seq<MethodInfo>;
    if k == RpcKind || k == ControllerKind {
      methods := MethodsFor(m, cls, k);
    } else {
      methods := ExtractPublicMethods(cls);
    }
    var instance := c.Resolve(Named(name), None, meta, rank);
    if instance.Err? {
      return Err(instance.error.Message());
    }
    return Ok(ScannedService(name, instance.value, methods, k));
  }

  /** One class of the merged map: registered when the classifier recognises it, passed over otherwise. */
  method ScanClass(c: DI.DIContainer, meta: Store, cls: ClassRef, ghost rank: map<Token, nat>)
    returns (r: Result<Option<ScannedService>, string>)
    requires c.Valid() && c.Ranked(rank, meta)
    modifies c
    ensures c.Valid() && c.Ranked(rank, meta) && c.services == old(c.services)
    ensures c.allClassRelationMap == old(c.allClassRelationMap) && c.routesPermitAllMap == old(c.routesPermitAllMap)
    ensures Classify(meta.State(), c.services.table, cls).None? ==> r == Ok(None)
    ensures Classify(meta.State(), c.services.table, cls).Some? && r.Ok? ==>
              r.value.Some? &&
              Describe(r.value.value) == Expected(meta.State(), cls, Classify(meta.State(), c.services.table, cls).value, "")
  {
    var kind := Classify(meta.State(), c.services.table, cls);
    if kind.None? {
      return Ok(None);
    }
    var service := RegisterService(c, meta, cls, kind.value, rank);
    if service.Err? {
      return Err(service.error);
    }
    return Ok(Some(service.value));
  }

  /** One turn of phase two's loop: class `i` is scanned and, when it yields an entry, that entry
      is appended to the found list and filed; a failure leaves the list a strict prefix of the
      entries a full scan would produce. */
  method ScanNext(c: DI.DIContainer, meta: Store, cls: ClassRef, ghost rank: map<Token, nat>,
                  ghost m: MetaState, ghost table: map<Token, DI.Registration>, ghost classes: seq<ClassRef>, ghost i: nat,
                  ghost base: OMap<string, ScannedService>, found: seq<ScannedService>, filed: OMap<string, ScannedService>)
    returns (found': seq<ScannedService>, filed': OMap<string, ScannedService>, err: Option<string>)
    requires i < |classes| && cls == classes[i] && base.Valid()
    requires c.Valid() && c.Ranked(rank, meta) && c.services.table == table && meta.State() == m
    requires filed == SetAll(base, found)
    requires Described(found) == ClassEntries(m, table, "", classes[..i])
    modifies c
    ensures c.Valid() && c.Ranked(rank, meta) && c.services == old(c.services)
    ensures c.allClassRelationMap == old(c.allClassRelationMap) && c.routesPermitAllMap == old(c.routesPermitAllMap)
    ensures filed' == SetAll(base, found')
    ensures err.None? ==> Described(found') == ClassEntries(m, table, "", classes[..i + 1])
    ensures err.Some? ==> found' == found && Described(found) < ClassEntries(m, table, "", classes)
  {
    var step := ScanClass(c, meta, cls, rank);
    found', filed', err := found, filed, None;
    if step.Err? {
      ScanFails(m, table, classes, i, found);
      err := Some(step.error);
    } else if step.value.Some? {
      ScanFinds(m, table, classes, i, base, found, step.value.value);
      found' := found + [step.value.value];
      filed' := filed.Set(step.value.value.name, step.value.value);
    } else {
      ClassEntriesStep(m, table, "", classes, i);
    }
  }

  /** A class that yields an entry extends both the found list and the catalogue by it. */
  lemma ScanFinds(m: MetaState, table: map<Token, DI.Registration>, classes: seq<ClassRef>, i: nat,
                  base: OMap<string, ScannedService>, found: seq<ScannedService>, e: ScannedService)
    requires i < |classes| && base.Valid()
    requires Described(found) == ClassEntries(m, table, "", classes[..i])
    requires Classify(m, table, classes[i]).Some?
    requires Describe(e) == Expected(m, classes[i], Classify(m, table, classes[i]).value, "")
    ensures Described(found + [e]) == ClassEntries(m, table, "", classes[..i + 1])
    ensures SetAll(base, found + [e]) == SetAll(base, found).Set(e.name, e)
  {
    ClassEntriesStep(m, table, "", classes, i);
    SetAllSnoc(base, found, e);
    DescribedAppend(found, [e]);
  }

  /** A class the classifier recognises still has its entry to come, so the entries found before
      it fall short of the whole scan's. */
  lemma ScanFails(m: MetaState, table: map<Token, DI.Registration>, classes: seq<ClassRef>, i: nat, found: seq<ScannedService>)
    requires i < |classes| && Classify(m, table, classes[i]).Some?
    requires Described(found) == ClassEntries(m, table, "", classes[..i])
    ensures Described(found) < ClassEntries(m, table, "", classes)
  {
    ClassEntriesStep(m, table, "", classes, i);
  }

  /** Phase two's loop over the merged map's classes, in order: the catalogue `base` is extended
      by every entry found, and the first registration error ends the loop. */
  method ScanAll(c: DI.DIContainer, meta: Store, classes: seq<ClassRef>, ghost rank: map<Token, nat>,
                 base: OMap<string, ScannedService>)
    returns (found: seq<ScannedService>, filed: OMap<string, ScannedService>, err: Option<string>)
    requires base.Valid() && c.Valid() && c.Ranked(rank, meta)
    modifies c
    ensures c.Valid() && c.Ranked(rank, meta) && c.services == old(c.services)
    ensures c.allClassRelationMap == old(c.allClassRelationMap) && c.routesPermitAllMap == old(c.routesPermitAllMap)
    ensures filed == SetAll(base, found)
    ensures Described(found) <= ClassEntries(meta.State(), c.services.table, "", classes)
    ensures err.None? <==> Described(found) == ClassEntries(meta.State(), c.services.table, "", classes)
  {
    ghost var m := meta.State();
    ghost var table := c.services.table;
    found, filed, err := [], base, None;
    assert classes[..0] == [];
    var i := 0;
    while i < |classes|
      invariant 0 <= i <= |classes|
      invariant c.Valid() && c.Ranked(rank, meta) && c.services == old(c.services) && c.services.table == table
      invariant c.allClassRelationMap == old(c.allClassRelationMap) && c.routesPermitAllMap == old(c.routesPermitAllMap)
      invariant filed == SetAll(base, found)
      invariant Described(found) == ClassEntries(m, table, "", classes[..i])
      invariant err.None?
    {
      found, filed, err := ScanNext(c, meta, classes[i], rank, m, table, classes, i, base, found, filed);
      if err.Some? {
        return;
      }
      i := i + 1;
    }
    assert classes[..i] == classes;
  }

  /** The scanner of the `rpc/` tree and the catalogue it fills. */
  class ServiceScanner {
    var services: OMap<string, ScannedService>

    ghost predicate Valid()
      reads this
    {
      services.Valid() && Keyed(services)
    }

    constructor ()
      ensures Valid() && services == Empty()
    {
      services := Empty();
    }

    /** `scanService(classMap)`: the classes of the merged map, in key order, each classified
        and registered; the first registration error ends the scan. */
    method ScanService(c: DI.DIContainer, meta: Store, all: ClassMap, ghost rank: map<Token, nat>)
      returns (found: seq<ScannedService>, err: Option<string>)
      requires all.Valid()
      requires Valid() && c.Valid() && c.Ranked(rank, meta)
      modifies this, c
      ensures Valid() && c.Valid() && c.Ranked(rank, meta) && c.services == old(c.services)
      ensures c.allClassRelationMap == old(c.allClassRelationMap) && c.routesPermitAllMap == old(c.routesPermitAllMap)
      ensures services == SetAll(old(services), found)
      ensures Described(found) <= ClassEntries(meta.State(), c.services.table, "", all.Values())
      ensures err.None? ==> Described(found) == ClassEntries(meta.State(), c.services.table, "", all.Values())
      ensures err.Some? ==> Described(found) != ClassEntries(meta.State(), c.services.table, "", all.Values())
    {
      var filed;
      found, filed, err := ScanAll(c, meta, all.Values(), rank, services);
      services := filed;
    }

    /** `scanServices(directories)`: phase one over the selected files, then phase two over
        the merged map. A load failure rejects the scan before any class is resolved. */
    method ScanServices(c: DI.DIContainer, meta: Store, dirs: seq<SourceDir>, ghost rank: map<Token, nat>)
      returns (found: seq<ScannedService>, err: Option<string>)
      requires Valid() && c.Valid() && c.Ranked(rank, meta)
      modifies this, c
      ensures Valid() && c.Valid() && c.Ranked(rank, meta) && c.services == old(c.services)
      ensures c.routesPermitAllMap == old(c.routesPermitAllMap)
      ensures c.allClassRelationMap == RecordedFiles(old(c.allClassRelationMap), SelectedFiles(dirs))
      ensures services == SetAll(old(services), found)
      ensures Collect(Empty(), SelectedFiles(dirs)).Err? ==>
                err == Some(Collect(Empty(), SelectedFiles(dirs)).error) && found == []
      ensures Collect(Empty(), SelectedFiles(dirs)).Ok? ==>
                && Described(found) <= ClassEntries(meta.State(), c.services.table, "", Collect(Empty(), SelectedFiles(dirs)).value.Values())
                && (err.None? <==>
                      Described(found) == ClassEntries(meta.State(), c.services.table, "", Collect(Empty(), SelectedFiles(dirs)).value.Values()))
    {
      var files := SelectFiles(dirs);
      var all := CollectClasses(c, files);
      if all.Err? {
        return [], Some(all.error);
      }
      found, err := ScanService(c, meta, all.value, rank);
    }
  }
}
