/** The `packages/rpc` service scanner: loads every module of the configured
    directories one file at a time, classifies each exported class by its
    metadata, resolves it through the container under the class itself, and
    files the result by name. */
module PackagesScanner {
  import opened Base
  import opened Runtime
  import opened Metadata
  import opened OrderedMaps
  import opened ScanCatalogue
  import DI

  /** Rpc services are catalogued as `demo_` followed by their `rpc:service` name. */
  const RPC_PREFIX := "demo_"

  /** `registerService(ServiceClass, exportName, type)`: name and methods from the metadata of
      the kind, the instance from `container.resolve(ServiceClass)`; a failed resolve is rethrown. */
  method RegisterService(c: DI.DIContainer, meta: Store, cls: ClassRef, k: Kind, ghost rank: map<Token, nat>)
    returns (r: Result<ScannedService, string>)
    requires c.Valid() && c.Ranked(rank, meta)
    requires Classify(meta.State(), c.services.table, cls) == Some(k)
    modifies c
    ensures c.Valid() && c.Ranked(rank, meta) && c.services == old(c.services)
    ensures c.allClassRelationMap == old(c.allClassRelationMap) && c.routesPermitAllMap == old(c.routesPermitAllMap)
    ensures DI.Extends(old(c.instances), c.instances) && DI.ScopesExtend(old(c.requestScopes), c.requestScopes)
    ensures r.Ok? ==> Describe(r.value) == Expected(meta.State(), cls, k, RPC_PREFIX)
    // the catalogued instance is what the container now holds for the class, as its scope dictates
    ensures r.Ok? ==> DI.Settled(c.services.table, c.instances, c.requestScopes, None, ClassToken(cls), r.value.instance)
    // the lookup is by class: a class registered only under a string name is not found
    ensures ClassToken(cls) !in old(c.instances) && ClassToken(cls) !in c.services.table ==>
              r == Err(DI.NotRegistered(cls.name, DI.NamesOf(c.services.keys)).Message())
  {
    var m := meta.State();
    var name := Expected(m, cls, k, RPC_PREFIX).name;
    var methods: seq<MethodInfo>;
    if k == RpcKind || k == ControllerKind {
      methods := MethodsFor(m, cls, k);
    } else {
      methods := ExtractPublicMethods(cls);
    }
    var instance := c.Resolve(ClassToken(cls), None, meta, rank);
    if instance.Err? {
      return Err(instance.error.Message());
    }
    return Ok(ScannedService(name, instance.value, methods, k));
  }

  /** The entries scanning one module records: its accepted classes, in export order. */
  function ExportEntries(m: MetaState, registered: map<Token, DI.Registration>, exports: seq<(string, Export)>): seq<Entry> {
    ClassEntries(m, registered, RPC_PREFIX, ClassesOf(exports))
  }

  /** The entries of the files of one directory, in order; a file that fails to load has none. */
  function FilesEntries(m: MetaState, registered: map<Token, DI.Registration>, files: seq<SourceFile>): seq<Entry>
    decreases |files|
  {
    if |files| == 0 then []
    else if files[0].LoadFailed? then FilesEntries(m, registered, files[1..])
    else ExportEntries(m, registered, files[0].exports) + FilesEntries(m, registered, files[1..])
  }

  /** The entries of every present directory, in order. */
  function DirsEntries(m: MetaState, registered: map<Token, DI.Registration>, dirs: seq<SourceDir>): seq<Entry>
    decreases |dirs|
  {
    if |dirs| == 0 then []
    else if dirs[0].Missing? then DirsEntries(m, registered, dirs[1..])
    else FilesEntries(m, registered, dirs[0].files) + DirsEntries(m, registered, dirs[1..])
  }

  /** One export of a loaded file: a class the classifier recognises is registered; anything
      else is passed over (`Ok(None)`). */
  method ScanExport(c: DI.DIContainer, meta: Store, e: Export, ghost rank: map<Token, nat>)
    returns (r: Result<Option<ScannedService>, string>)
    requires c.Valid() && c.Ranked(rank, meta)
    modifies c
    ensures c.Valid() && c.Ranked(rank, meta) && c.services == old(c.services)
    ensures c.allClassRelationMap == old(c.allClassRelationMap) && c.routesPermitAllMap == old(c.routesPermitAllMap)
    ensures !e.ClassExport? || Classify(meta.State(), c.services.table, e.cls).None? ==> r == Ok(None)
    ensures e.ClassExport? && Classify(meta.State(), c.services.table, e.cls).Some? && r.Ok? ==>
              r.value.Some? &&
              Describe(r.value.value) == Expected(meta.State(), e.cls, Classify(meta.State(), c.services.table, e.cls).value, RPC_PREFIX)
  {
    if !e.ClassExport? {
      return Ok(None);
    }
    var kind := Classify(meta.State(), c.services.table, e.cls);
    if kind.None? {
      return Ok(None);
    }
    var service := RegisterService(c, meta, e.cls, kind.value, rank);
    if service.Err? {
      return Err(service.error);
    }
    return Ok(Some(service.value));
  }

  /** Every file of a present directory loads. */
  predicate AllLoad(dirs: seq<SourceDir>) {
    forall d :: 0 <= d < |dirs| ==> DirLoads(dirs[d])
  }

  predicate DirLoads(dir: SourceDir) {
    dir.Present? ==> FilesLoad(dir.files)
  }

  class ServiceScanner {
    /** The catalogue, keyed by service name. */
    var services: OMap<string, ScannedService>

    ghost predicate Valid()
      reads this
    {
      services.Valid() && Keyed(services)
    }

    constructor ()
      ensures Valid() && services == Empty()
    {
      services := Empty();
    }

    /** `scanFile(path)` on an already loaded module: each accepted export is registered and
        filed in turn; the first failure aborts the file with the entries filed so far kept. */
    method ScanFile(c: DI.DIContainer, meta: Store, exports: seq<(string, Export)>, ghost rank: map<Token, nat>)
      returns (found: seq<ScannedService>, err: Option<string>)
      requires Valid() && c.Valid() && c.Ranked(rank, meta)
      modifies this, c
      ensures Valid() && c.Valid() && c.Ranked(rank, meta) && c.services == old(c.services)
      ensures c.allClassRelationMap == old(c.allClassRelationMap) && c.routesPermitAllMap == old(c.routesPermitAllMap)
      ensures services == SetAll(old(services), found)
      ensures Described(found) <= ExportEntries(meta.State(), c.services.table, exports)
      ensures err.None? ==> Described(found) == ExportEntries(meta.State(), c.services.table, exports)
      ensures err.Some? ==> Described(found) != ExportEntries(meta.State(), c.services.table, exports)
    {
      ghost var m := meta.State();
      ghost var table := c.services.table;
      found, err := [], None;
      var filed := services;
      assert exports[..0] == [];
      var i := 0;
      while i < |exports|
        invariant 0 <= i <= |exports|
        invariant c.Valid() && c.Ranked(rank, meta) && c.services == old(c.services) && c.services.table == table
        invariant c.allClassRelationMap == old(c.allClassRelationMap) && c.routesPermitAllMap == old(c.routesPermitAllMap)
        invariant filed == SetAll(old(services), found)
        invariant Described(found) == ExportEntries(m, table, exports[..i])
        invariant err.None?
        modifies c
      {
        var step := ScanExport(c, meta, exports[i].1, rank);
        if step.Err? {
          ExportFails(m, table, exports, i, found);
          err := Some(step.error);
          break;
        }
        if step.value.Some? {
          ExportFinds(m, table, exports, i, old(services), found, step.value.value);
          found := found + [step.value.value];
          filed := filed.Set(step.value.value.name, step.value.value);
        } else {
          ExportEntriesStep(m, table, exports, i);
        }
        i := i + 1;
      }
      services := filed;
      if err.None? {
        assert exports[..i] == exports;
      }
    }

    /** `scanServices(directories)`: missing directories are skipped, every selected file is
        scanned in order, and a file that fails to load or to register aborts the scan. */
    method ScanServices(c: DI.DIContainer, meta: Store, dirs: seq<SourceDir>, ghost rank: map<Token, nat>)
      returns (found: seq<ScannedService>, err: Option<string>)
      requires Valid() && c.Valid() && c.Ranked(rank, meta)
      modifies this, c
      ensures Valid() && c.Valid() && c.Ranked(rank, meta) && c.services == old(c.services)
      ensures c.allClassRelationMap == old(c.allClassRelationMap) && c.routesPermitAllMap == old(c.routesPermitAllMap)
      ensures services == SetAll(old(services), found)
      ensures Described(found) <= DirsEntries(meta.State(), c.services.table, dirs)
      ensures err.None? ==> AllLoad(dirs) && Described(found) == DirsEntries(meta.State(), c.services.table, dirs)
    {
      ghost var m := meta.State();
      ghost var table := c.services.table;
      found, err := [], None;
      assert dirs[..0] == [];
      var d := 0;
      while d < |dirs|
        invariant 0 <= d <= |dirs|
        invariant Valid() && c.Valid() && c.Ranked(rank, meta) && c.services == old(c.services) && c.services.table == table
        invariant c.allClassRelationMap == old(c.allClassRelationMap) && c.routesPermitAllMap == old(c.routesPermitAllMap)
        invariant services == SetAll(old(services), found)
        invariant AllLoad(dirs[..d]) && Described(found) == DirsEntries(m, table, dirs[..d])
        invariant err.None?
      {
        if dirs[d].Present? {
          var more, failure := ScanFiles(c, meta, dirs[d].files, rank);
          DirScanned(m, table, dirs, d, found, more, failure.Some?);
          SetAllAppend(old(services), found, more);
          found := found + more;
          if failure.Some? {
            err := failure;
            break;
          }
        } else {
          DirsEntriesStep(m, table, dirs, d);
        }
        d := d + 1;
      }
      if err.None? {
        assert dirs[..d] == dirs;
      }
    }

    /** The `for (const file of files)` loop of `scanServices` over one directory. */
    method ScanFiles(c: DI.DIContainer, meta: Store, files: seq<SourceFile>, ghost rank: map<Token, nat>)
      returns (found: seq<ScannedService>, err: Option<string>)
      requires Valid() && c.Valid() && c.Ranked(rank, meta)
      modifies this, c
      ensures Valid() && c.Valid() && c.Ranked(rank, meta) && c.services == old(c.services)
      ensures c.allClassRelationMap == old(c.allClassRelationMap) && c.routesPermitAllMap == old(c.routesPermitAllMap)
      ensures services == SetAll(old(services), found)
      ensures Described(found) <= FilesEntries(meta.State(), c.services.table, files)
      ensures err.None? ==> FilesLoad(files) && Described(found) == FilesEntries(meta.State(), c.services.table, files)
    {
      ghost var m := meta.State();
      ghost var table := c.services.table;
      found, err := [], None;
      assert files[..0] == [];
      var f := 0;
      while f < |files|
        invariant 0 <= f <= |files|
        invariant Valid() && c.Valid() && c.Ranked(rank, meta) && c.services == old(c.services) && c.services.table == table
        invariant c.allClassRelationMap == old(c.allClassRelationMap) && c.routesPermitAllMap == old(c.routesPermitAllMap)
        invariant services == SetAll(old(services), found)
        invariant FilesLoad(files[..f]) && Described(found) == FilesEntries(m, table, files[..f])
        invariant err.None?
      {
        if files[f].LoadFailed? {
          FileScanned(m, table, files, f, found, [], true);
          assert found + [] == found;
          err := Some(files[f].error);
          break;
        }
        var more, failure := ScanFile(c, meta, files[f].exports, rank);
        FileScanned(m, table, files, f, found, more, failure.Some?);
        SetAllAppend(old(services), found, more);
        found := found + more;
        if failure.Some? {
          err := failure;
          break;
        }
        f := f + 1;
      }
      if err.None? {
        assert files[..f] == files;
      }
    }
  }

  /** An export that yields an entry extends both the found list and the catalogue by it. */
  lemma ExportFinds(m: MetaState, table: map<Token, DI.Registration>, exports: seq<(string, Export)>, i: nat,
                    base: OMap<string, ScannedService>, found: seq<ScannedService>, e: ScannedService)
    requires i < |exports| && base.Valid()
    requires Described(found) == ExportEntries(m, table, exports[..i])
    requires exports[i].1.ClassExport? && Classify(m, table, exports[i].1.cls).Some?
    requires Describe(e) == Expected(m, exports[i].1.cls, Classify(m, table, exports[i].1.cls).value, RPC_PREFIX)
    ensures Described(found + [e]) == ExportEntries(m, table, exports[..i + 1])
    ensures SetAll(base, found + [e]) == SetAll(base, found).Set(e.name, e)
  {
    ExportEntriesStep(m, table, exports, i);
    SetAllSnoc(base, found, e);
    DescribedAppend(found, [e]);
  }

  /** An export the classifier recognises still has its entry to come, so the entries found
      before it fall short of the whole file's. */
  lemma ExportFails(m: MetaState, table: map<Token, DI.Registration>, exports: seq<(string, Export)>, i: nat,
                    found: seq<ScannedService>)
    requires i < |exports| && exports[i].1.ClassExport? && Classify(m, table, exports[i].1.cls).Some?
    requires Described(found) == ExportEntries(m, table, exports[..i])
    ensures Described(found) < ExportEntries(m, table, exports)
  {
    ExportEntriesStep(m, table, exports, i);
  }

  lemma ExportEntriesStep(m: MetaState, table: map<Token, DI.Registration>, exports: seq<(string, Export)>, i: nat)
    requires i < |exports|
    ensures exports[i].1.ClassExport? && Classify(m, table, exports[i].1.cls).Some? ==>
              ExportEntries(m, table, exports[..i + 1]) ==
              ExportEntries(m, table, exports[..i]) + [Expected(m, exports[i].1.cls, Classify(m, table, exports[i].1.cls).value, RPC_PREFIX)]
    ensures !exports[i].1.ClassExport? || Classify(m, table, exports[i].1.cls).None? ==>
              ExportEntries(m, table, exports[..i + 1]) == ExportEntries(m, table, exports[..i])
    ensures ExportEntries(m, table, exports[..i + 1]) <= ExportEntries(m, table, exports)
  {
    assert exports[..i + 1] == exports[..i] + [exports[i]];
    ClassesOfAppend(exports[..i], [exports[i]]);
    assert [exports[i]][1..] == [];
    var step := ClassesOf([exports[i]]);
    ClassEntriesAppend(m, table, RPC_PREFIX, ClassesOf(exports[..i]), step);
    if exports[i].1.ClassExport? {
      assert step[1..] == [];
    }
    assert exports == exports[..i + 1] + exports[i + 1..];
    ClassesOfAppend(exports[..i + 1], exports[i + 1..]);
    ClassEntriesAppend(m, table, RPC_PREFIX, ClassesOf(exports[..i + 1]), ClassesOf(exports[i + 1..]));
  }

  lemma {:induction false} FilesEntriesAppend(m: MetaState, table: map<Token, DI.Registration>, a: seq<SourceFile>, b: seq<SourceFile>)
    ensures FilesEntries(m, table, a + b) == FilesEntries(m, table, a) + FilesEntries(m, table, b)
    decreases |a|
  {
    if |a| == 0 {
      assert a + b == b;
    } else {
      assert (a + b)[1..] == a[1..] + b;
      FilesEntriesAppend(m, table, a[1..], b);
    }
  }

  lemma {:induction false} DirsEntriesAppend(m: MetaState, table: map<Token, DI.Registration>, a: seq<SourceDir>, b: seq<SourceDir>)
    ensures DirsEntries(m, table, a + b) == DirsEntries(m, table, a) + DirsEntries(m, table, b)
    decreases |a|
  {
    if |a| == 0 {
      assert a + b == b;
    } else {
      assert (a + b)[1..] == a[1..] + b;
      DirsEntriesAppend(m, table, a[1..], b);
    }
  }

  lemma FilesEntriesStep(m: MetaState, table: map<Token, DI.Registration>, files: seq<SourceFile>, f: nat)
    requires f < |files|
    ensures files[f].Loaded? ==>
              FilesEntries(m, table, files[..f + 1]) == FilesEntries(m, table, files[..f]) + ExportEntries(m, table, files[f].exports)
    ensures FilesEntries(m, table, files[..f + 1]) <= FilesEntries(m, table, files)
    ensures files[f].Loaded? && FilesLoad(files[..f]) ==> FilesLoad(files[..f + 1])
  {
    assert files[..f + 1] == files[..f] + [files[f]];
    FilesEntriesAppend(m, table, files[..f], [files[f]]);
    assert [files[f]][1..] == [];
    assert files == files[..f + 1] + files[f + 1..];
    FilesEntriesAppend(m, table, files[..f + 1], files[f + 1..]);
  }

  lemma DirsEntriesStep(m: MetaState, table: map<Token, DI.Registration>, dirs: seq<SourceDir>, d: nat)
    requires d < |dirs|
    ensures dirs[d].Present? ==>
              DirsEntries(m, table, dirs[..d + 1]) == DirsEntries(m, table, dirs[..d]) + FilesEntries(m, table, dirs[d].files)
    ensures dirs[d].Missing? ==> DirsEntries(m, table, dirs[..d + 1]) == DirsEntries(m, table, dirs[..d])
    ensures DirsEntries(m, table, dirs[..d + 1]) <= DirsEntries(m, table, dirs)
    ensures DirLoads(dirs[d]) && AllLoad(dirs[..d]) ==> AllLoad(dirs[..d + 1])
  {
    assert dirs[..d + 1] == dirs[..d] + [dirs[d]];
    DirsEntriesAppend(m, table, dirs[..d], [dirs[d]]);
    assert [dirs[d]][1..] == [];
    assert dirs == dirs[..d + 1] + dirs[d + 1..];
    DirsEntriesAppend(m, table, dirs[..d + 1], dirs[d + 1..]);
  }

  lemma {:induction false} SetAllAppend(catalogue: OMap<string, ScannedService>, a: seq<ScannedService>, b: seq<ScannedService>)
    requires catalogue.Valid()
    ensures SetAll(catalogue, a + b) == SetAll(SetAll(catalogue, a), b)
    decreases |a|
  {
    if |a| == 0 {
      assert a + b == b;
    } else {
      assert (a + b)[1..] == a[1..] + b;
      SetAllAppend(catalogue.Set(a[0].name, a[0]), a[1..], b);
    }
  }

  /** Scanning present directory `d` appends its files' entries: all of them when every file
      loads and registers, a prefix of them otherwise. */
  lemma DirScanned(m: MetaState, table: map<Token, DI.Registration>, dirs: seq<SourceDir>, d: nat,
                   found: seq<ScannedService>, more: seq<ScannedService>, failed: bool)
    requires d < |dirs| && dirs[d].Present?
    requires AllLoad(dirs[..d]) && Described(found) == DirsEntries(m, table, dirs[..d])
    requires Described(more) <= FilesEntries(m, table, dirs[d].files)
    requires !failed ==> FilesLoad(dirs[d].files) && Described(more) == FilesEntries(m, table, dirs[d].files)
    ensures Described(found + more) <= DirsEntries(m, table, dirs)
    ensures !failed ==> AllLoad(dirs[..d + 1]) && Described(found + more) == DirsEntries(m, table, dirs[..d + 1])
  {
    DirsEntriesStep(m, table, dirs, d);
    DescribedAppend(found, more);
    PrefixWithin(DirsEntries(m, table, dirs[..d]), Described(more), FilesEntries(m, table, dirs[d].files), DirsEntries(m, table, dirs));
  }

  /** Scanning file `f` appends its exports' entries: all of them when it loads and every export
      registers, a prefix of them otherwise (none when it fails to load). */
  lemma FileScanned(m: MetaState, table: map<Token, DI.Registration>, files: seq<SourceFile>, f: nat,
                    found: seq<ScannedService>, more: seq<ScannedService>, failed: bool)
    requires f < |files|
    requires FilesLoad(files[..f]) && Described(found) == FilesEntries(m, table, files[..f])
    requires files[f].LoadFailed? ==> more == [] && failed
    requires files[f].Loaded? ==> Described(more) <= ExportEntries(m, table, files[f].exports)
    requires files[f].Loaded? && !failed ==> Described(more) == ExportEntries(m, table, files[f].exports)
    ensures Described(found + more) <= FilesEntries(m, table, files)
    ensures !failed ==> FilesLoad(files[..f + 1]) && Described(found + more) == FilesEntries(m, table, files[..f + 1])
  {
    FilesEntriesStep(m, table, files, f);
    DescribedAppend(found, more);
    if files[f].Loaded? {
      PrefixWithin(FilesEntries(m, table, files[..f]), Described(more), ExportEntries(m, table, files[f].exports),
                   FilesEntries(m, table, files));
    } else {
      assert Described(more) == [];
      assert FilesEntries(m, table, files[..f]) + [] <= FilesEntries(m, table, files[..f + 1]);
    }
  }

  /** A scan that stopped inside a stretch of the plan is still a prefix of the whole plan. */
  lemma PrefixWithin<T>(done: seq<T>, partial: seq<T>, stretch: seq<T>, whole: seq<T>)
    requires partial <= stretch && done + stretch <= whole
    ensures done + partial <= whole
  {
    assert forall i :: 0 <= i < |done + partial| ==> (done + partial)[i] == (done + stretch)[i];
  }
}
