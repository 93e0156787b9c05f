/** The registry center's `RegistryService`: service instances by id, in registration order,
    kept alive by heartbeats. The clock is a parameter (milliseconds); the periodic heartbeat
    check is a method the timer would call. */
module Registry {
  import opened Base
  import opened Json
  import opened OrderedMaps

  /** `heartbeatInterval`, in milliseconds. */
  const HEARTBEAT_INTERVAL: int := 10000

  datatype Status = UP | DOWN | OUT_OF_SERVICE

  /** `ServiceRegistration` as the request body carries it; absent fields are `None`, an absent
      `metadata` is `JUndefined`. */
  datatype Registration = Registration(name: Option<string>, version: Option<string>, address: Option<string>,
                                       port: Option<int>, protocol: Option<string>, metadata: Json)

  /** `ServiceInstance`. */
  datatype ServiceInstance = ServiceInstance(id: string, name: Option<string>, version: Option<string>,
                                             address: Option<string>, port: Option<int>, protocol: string,
                                             metadata: Json, lastHeartbeat: int, status: Status)

  /** `ServiceDiscovery`: the name looked for and, optionally, the version. */
  datatype ServiceDiscovery = ServiceDiscovery(name: Option<string>, version: Option<string>)

  /** A port as a template literal renders it. */
  function RenderPort(port: Option<int>): string {
    if port.Some? then IntToString(port.value) else "undefined"
  }

  /** `generateServiceId(registration)`: `name:version:address:port`. */
  function GenerateServiceId(reg: Registration): string {
    Render(reg.name) + ":" + Render(reg.version) + ":" + Render(reg.address) + ":" + RenderPort(reg.port)
  }

  /** The instance `register` stores: protocol defaults to `http`, metadata to `{}`, and the
      instance is UP with its heartbeat at `now`. */
  function NewInstance(reg: Registration, now: int): (inst: ServiceInstance)
    ensures inst.id == GenerateServiceId(reg)
    ensures inst.name == reg.name && inst.version == reg.version && inst.address == reg.address && inst.port == reg.port
    ensures inst.protocol == (if Truthy(reg.protocol) then reg.protocol.value else "http")
    ensures inst.metadata == (if Falsy(reg.metadata) then JObj(map[]) else reg.metadata)
    ensures inst.lastHeartbeat == now && inst.status == UP
  {
    ServiceInstance(GenerateServiceId(reg), reg.name, reg.version, reg.address, reg.port,
                    OrElse(reg.protocol, "http"), OrEmptyObject(reg.metadata), now, UP)
  }

  /** `RegistryServiceInfo`, what a service sends about itself. */
  datatype ServiceInfo = ServiceInfo(name: string, version: string, address: string, port: int, protocol: string, metadata: Json)

  /** The body `RegistryClient.registerService` posts. */
  function RegistrationOf(info: ServiceInfo): Registration {
    Registration(Some(info.name), Some(info.version), Some(info.address), Some(info.port), Some(info.protocol), info.metadata)
  }

  /** The id `RegistryClient.sendHeartbeat` computes from the same information. */
  function ClientServiceId(info: ServiceInfo): string {
    info.name + ":" + info.version + ":" + info.address + ":" + IntToString(info.port)
  }

  /** The id a client heartbeats with is the id its registration was filed under. */
  lemma ClientIdMatches(info: ServiceInfo)
    ensures ClientServiceId(info) == GenerateServiceId(RegistrationOf(info))
  {
  }

  /** More than `limit` milliseconds since the last heartbeat. */
  predicate Stale(inst: ServiceInstance, now: int, limit: int) {
    now - inst.lastHeartbeat > limit
  }

  /** An instance as `checkHeartbeats` leaves it: DOWN when stale past three intervals. */
  function Checked(inst: ServiceInstance, now: int): ServiceInstance {
    if Stale(inst, now, HEARTBEAT_INTERVAL * 3) then inst.(status := DOWN) else inst
  }

  /** `Array.from(values).filter(...)` on name and UP, then on the version when one is given. */
  predicate Discovered(inst: ServiceInstance, d: ServiceDiscovery) {
    inst.name == d.name && inst.status == UP && (Truthy(d.version) ==> inst.version == d.version)
  }

  /** The instances of `instances` that `d` discovers, in order. */
  function DiscoverIn(instances: seq<ServiceInstance>, d: ServiceDiscovery): (r: seq<ServiceInstance>)
    ensures forall x :: x in r <==> x in instances && Discovered(x, d)
    ensures |r| <= |instances|
  {
    if |instances| == 0 then []
    else (if Discovered(instances[0], d) then [instances[0]] else []) + DiscoverIn(instances[1..], d)
  }

  /** The instances of `instances` named `serviceName`, whatever their status, in order. */
  function NamedIn(instances: seq<ServiceInstance>, serviceName: string): (r: seq<ServiceInstance>)
    ensures forall x :: x in r <==> x in instances && x.name == Some(serviceName)
    ensures |r| <= |instances|
  {
    if |instances| == 0 then []
    else (if instances[0].name == Some(serviceName) then [instances[0]] else []) + NamedIn(instances[1..], serviceName)
  }

  /** The ids of `ids` whose instances outlive five intervals, in order. */
  function Survivors(ids: seq<string>, table: map<string, ServiceInstance>, now: int): (r: seq<string>)
    requires forall k :: k in ids ==> k in table
  {
    if |ids| == 0 then []
    else
      var last := ids[|ids| - 1];
      assert forall k :: k in ids[..|ids| - 1] ==> k in ids;
      Survivors(ids[..|ids| - 1], table, now) + (if Stale(table[last], now, HEARTBEAT_INTERVAL * 5) then [] else [last])
  }

  /** The survivors are exactly the ids whose instances are not stale past five intervals. */
  lemma {:induction false} SurvivorsMembers(ids: seq<string>, table: map<string, ServiceInstance>, now: int)
    requires forall k :: k in ids ==> k in table
    ensures forall k :: k in Survivors(ids, table, now) <==> k in ids && !Stale(table[k], now, HEARTBEAT_INTERVAL * 5)
    decreases |ids|
  {
    if |ids| > 0 {
      var init := ids[..|ids| - 1];
      assert forall k :: k in init ==> k in ids;
      SurvivorsMembers(init, table, now);
      assert ids == init + [ids[|ids| - 1]];
    }
  }

  /** Dropping the first occurrence of the head of `b`, which occurs nowhere else. */
  lemma {:induction false} WithoutHead(a: seq<string>, b: seq<string>)
    requires |b| > 0 && b[0] !in a && b[0] !in b[1..]
    ensures Without(a + b, b[0]) == a + b[1..]
    decreases |a|
  {
    if |a| == 0 {
      assert a + b == b;
      WithoutAbsent(b[1..], b[0]);
    } else {
      assert (a + b)[1..] == a[1..] + b;
      WithoutHead(a[1..], b);
      assert a + b[1..] == [a[0]] + (a[1..] + b[1..]);
    }
  }

  /** Dropping an element that is not there changes nothing. */
  lemma {:induction false} WithoutAbsent(s: seq<string>, k: string)
    requires k !in s
    ensures Without(s, k) == s
    decreases |s|
  {
    if |s| > 0 {
      assert s[1..] == s[1..] && k !in s[1..];
      WithoutAbsent(s[1..], k);
      assert s == [s[0]] + s[1..];
    }
  }

  /** One step of the clean-up pass over `ids` when the `i`-th instance is stale: dropping its id
      extends the survivors of the ids already passed. */
  lemma DropStep(ids: seq<string>, i: nat, table: map<string, ServiceInstance>, now: int)
    requires i < |ids| && Distinct(ids)
    requires forall k :: k in ids ==> k in table
    requires Stale(table[ids[i]], now, HEARTBEAT_INTERVAL * 5)
    ensures Without(Survivors(ids[..i], table, now) + ids[i..], ids[i]) == Survivors(ids[..i + 1], table, now) + ids[i + 1..]
    ensures Survivors(ids[..i + 1], table, now) == Survivors(ids[..i], table, now)
  {
    assert ids[..i + 1][..i] == ids[..i];
    var done := Survivors(ids[..i], table, now);
    assert forall k :: k in ids[..i] ==> k in ids;
    SurvivorsMembers(ids[..i], table, now);
    assert ids[i] !in done by {
      assert forall j :: 0 <= j < i ==> ids[j] != ids[i];
    }
    assert ids[i] !in ids[i + 1..] by {
      assert forall j :: i < j < |ids| ==> ids[j] != ids[i];
    }
    WithoutHead(done, ids[i..]);
  }

  /** One step of the clean-up pass over `ids` when the `i`-th instance is not stale: keeping its
      id extends the survivors of the ids already passed. */
  lemma KeepStep(ids: seq<string>, i: nat, table: map<string, ServiceInstance>, now: int)
    requires i < |ids|
    requires forall k :: k in ids ==> k in table
    requires !Stale(table[ids[i]], now, HEARTBEAT_INTERVAL * 5)
    ensures Survivors(ids[..i], table, now) + ids[i..] == Survivors(ids[..i + 1], table, now) + ids[i + 1..]
    ensures |Survivors(ids[..i + 1], table, now)| == |Survivors(ids[..i], table, now)| + 1
  {
    assert ids[..i + 1][..i] == ids[..i];
    assert ids[i..] == [ids[i]] + ids[i + 1..];
    var done := Survivors(ids[..i], table, now);
    assert done + ids[i..] == (done + [ids[i]]) + ids[i + 1..];
  }

  /** Where the clean-up pass stands after the first `i` ids of `ids`, the keys of `table`:
      the stale ones among them are deleted and counted, the rest of the table is untouched. */
  ghost predicate SweptUpTo(kept: OMap<string, ServiceInstance>, cleanedCount: nat,
                            ids: seq<string>, i: nat, table: map<string, ServiceInstance>, now: int)
    requires i <= |ids| && forall k :: k in ids ==> k in table
  {
    && kept.Valid()
    && kept.keys == Survivors(ids[..i], table, now) + ids[i..]
    && (forall id :: id in kept.table ==> id in table && kept.table[id] == table[id])
    && cleanedCount + |kept.keys| == |ids|
  }

  /** One step of the clean-up pass: the `i`-th id is deleted and counted when its instance is
      stale past five intervals. */
  method Sweep(kept: OMap<string, ServiceInstance>, cleanedCount: nat,
               ids: seq<string>, i: nat, table: map<string, ServiceInstance>, now: int)
    returns (kept': OMap<string, ServiceInstance>, cleanedCount': nat)
    requires i < |ids| && Distinct(ids) && forall k :: k in ids ==> k in table
    requires SweptUpTo(kept, cleanedCount, ids, i, table, now)
    ensures SweptUpTo(kept', cleanedCount', ids, i + 1, table, now)
  {
    assert ids[i..] == [ids[i]] + ids[i + 1..];
    assert ids[i] in kept.keys;
    var service := kept.table[ids[i]];
    if now - service.lastHeartbeat > HEARTBEAT_INTERVAL * 5 {
      DropStep(ids, i, table, now);
      kept' := kept.Delete(ids[i]);
      cleanedCount' := cleanedCount + 1;
    } else {
      KeepStep(ids, i, table, now);
      kept', cleanedCount' := kept, cleanedCount;
    }
  }

  /** The pass of `cleanupExpiredServices` over a table: every instance silent for more than
      five intervals is deleted and counted, in key order. */
  method Expire(services: OMap<string, ServiceInstance>, now: int) returns (kept: OMap<string, ServiceInstance>, cleanedCount: nat)
    requires services.Valid()
    ensures kept.Valid()
    ensures kept.keys == Survivors(services.keys, services.table, now)
    ensures forall id :: id in kept.table <==> id in services.table && !Stale(services.table[id], now, HEARTBEAT_INTERVAL * 5)
    ensures forall id :: id in kept.table ==> kept.table[id] == services.table[id]
    ensures cleanedCount == |services.table| - |kept.table|
  {
    var ids := services.keys;
    kept := services;
    var i := 0;
    cleanedCount := 0;
    assert ids[..0] == [] && ids[0..] == ids;
    while i < |ids|
      invariant 0 <= i <= |ids|
      invariant SweptUpTo(kept, cleanedCount, ids, i, services.table, now)
    {
      kept, cleanedCount := Sweep(kept, cleanedCount, ids, i, services.table, now);
      i := i + 1;
    }
    assert ids[..i] == ids && ids[i..] == [];
    SurvivorsMembers(ids, services.table, now);
    KeysCount(ids, services.table);
    KeysCount(kept.keys, kept.table);
  }

  class RegistryService {
    /** `services`, by id, in registration order. */
    var services: OMap<string, ServiceInstance>
    /** Whether the heartbeat-check timer is still scheduled. */
    var timerRunning: bool

    ghost predicate Valid()
      reads this
    {
      services.Valid()
    }

    /** `new RegistryService()`: no instances, the heartbeat check scheduled. */
    constructor ()
      ensures Valid() && services == Empty() && timerRunning
    {
      services := Empty();
      timerRunning := true;
    }

    /** `register(registration)`: the new instance is filed under its id, replacing any instance
        with the same id in its place, and returned. */
    method Register(reg: Registration, now: int) returns (inst: ServiceInstance)
      requires Valid()
      modifies this
      ensures Valid() && timerRunning == old(timerRunning)
      ensures inst == NewInstance(reg, now)
      ensures services == old(services).Set(GenerateServiceId(reg), inst)
    {
      var serviceId := GenerateServiceId(reg);
      inst := ServiceInstance(serviceId, reg.name, reg.version, reg.address, reg.port,
                              OrElse(reg.protocol, "http"), OrEmptyObject(reg.metadata), now, UP);
      services := services.Set(serviceId, inst);
    }

    /** `unregister(serviceId)`: whether the id was registered; afterwards it is not, and every
        other instance is as it was. */
    method Unregister(serviceId: string) returns (existed: bool)
      requires Valid()
      modifies this
      ensures Valid() && timerRunning == old(timerRunning)
      ensures existed <==> serviceId in old(services.table)
      ensures services == old(services).Delete(serviceId)
    {
      existed := services.Has(serviceId);
      services := services.Delete(serviceId);
    }

    /** `heartbeat(serviceId)`: a registered instance is refreshed and set UP; an unknown id
        changes nothing. */
    method Heartbeat(serviceId: string, now: int) returns (found: bool)
      requires Valid()
      modifies this
      ensures Valid() && timerRunning == old(timerRunning)
      ensures found <==> serviceId in old(services.table)
      ensures found ==> services == old(services).Set(serviceId, old(services.table[serviceId]).(lastHeartbeat := now, status := UP))
      ensures !found ==> services == old(services)
    {
      var service := services.Get(serviceId);
      if service.Some? {
        services := services.Set(serviceId, service.value.(lastHeartbeat := now, status := UP));
        return true;
      }
      return false;
    }

    /** `discover(discovery)`: the UP instances with the name and, when given, the version. */
    function Discover(d: ServiceDiscovery): (r: seq<ServiceInstance>)
      requires Valid()
      reads this
      ensures forall x :: x in r <==> (exists id :: id in services.table && services.table[id] == x) && Discovered(x, d)
    {
      var all := services.Values();
      assert forall id :: id in services.table ==> services.table[id] in all by {
        forall id | id in services.table
          ensures services.table[id] in all
        {
          var i :| 0 <= i < |services.keys| && services.keys[i] == id;
          assert all[i] == services.table[id];
        }
      }
      DiscoverIn(all, d)
    }

    /** `getAllServices()`: every instance, in registration order. */
    function GetAllServices(): (r: seq<ServiceInstance>)
      requires Valid()
      reads this
      ensures |r| == |services.keys| == |services.table|
      ensures forall i :: 0 <= i < |r| ==> r[i] == services.table[services.keys[i]]
    {
      KeysCount(services.keys, services.table);
      services.Values()
    }

    /** `getServiceInstances(serviceName)`: every instance with that name, UP or not, in order. */
    function GetServiceInstances(serviceName: string): (r: seq<ServiceInstance>)
      requires Valid()
      reads this
      ensures forall x :: x in r <==> x in GetAllServices() && x.name == Some(serviceName)
    {
      NamedIn(GetAllServices(), serviceName)
    }

    /** `checkHeartbeats()`: every instance silent for more than three intervals is set DOWN; no
        instance is removed, none is set UP and the rest are untouched. */
    method CheckHeartbeats(now: int)
      requires Valid()
      modifies this
      ensures Valid() && timerRunning == old(timerRunning)
      ensures services.keys == old(services.keys)
      ensures forall id :: id in services.table <==> id in old(services.table)
      ensures forall id :: id in services.table ==> services.table[id] == Checked(old(services.table[id]), now)
    {
      var ids := services.keys;
      var i := 0;
      while i < |ids|
        invariant 0 <= i <= |ids|
        invariant services.Valid() && services.keys == ids && timerRunning == old(timerRunning)
        invariant forall id :: id in services.table <==> id in old(services.table)
        invariant forall j :: 0 <= j < i ==> services.table[ids[j]] == Checked(old(services.table[ids[j]]), now)
        invariant forall j :: i <= j < |ids| ==> services.table[ids[j]] == old(services.table[ids[j]])
      {
        var service := services.table[ids[i]];
        if now - service.lastHeartbeat > HEARTBEAT_INTERVAL * 3 {
          services := services.Set(ids[i], service.(status := DOWN));
        }
        i := i + 1;
      }
      forall id | id in services.table
        ensures services.table[id] == Checked(old(services.table[id]), now)
      {
        var j :| 0 <= j < |ids| && ids[j] == id;
      }
    }

    /** `cleanupExpiredServices()`: every instance silent for more than five intervals is removed
        and counted; the rest stay, unchanged and in order. */
    method CleanupExpiredServices(now: int) returns (cleanedCount: nat)
      requires Valid()
      modifies this
      ensures Valid() && timerRunning == old(timerRunning)
      ensures services.keys == Survivors(old(services.keys), old(services.table), now)
      ensures forall id :: id in services.table <==>
                id in old(services.table) && !Stale(old(services.table[id]), now, HEARTBEAT_INTERVAL * 5)
      ensures forall id :: id in services.table ==> services.table[id] == old(services.table[id])
      ensures cleanedCount == |old(services.table)| - |services.table|
    {
      services, cleanedCount := Expire(services, now);
    }

    /** `stop()`: the heartbeat check is no longer scheduled. */
    method Stop()
      modifies this
      ensures !timerRunning && services == old(services)
    {
      timerRunning := false;
    }
  }

  /** Registering the same instance information again replaces the old record in place: the
      table keeps one entry for the id, at its old position, and it is the new one. */
  lemma ReRegisterReplaces(services: OMap<string, ServiceInstance>, reg: Registration, first: int, second: int)
    requires services.Valid()
    ensures var once := services.Set(GenerateServiceId(reg), NewInstance(reg, first));
            var twice := once.Set(GenerateServiceId(reg), NewInstance(reg, second));
            && twice.keys == once.keys
            && twice.table[GenerateServiceId(reg)].lastHeartbeat == second
            && |twice.table| == |once.table|
  {
  }
}
