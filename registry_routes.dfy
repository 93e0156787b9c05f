/** The registry center's HTTP routes over its one `RegistryService`: each handler turns a
    request into a status and a JSON-shaped reply. */
module RegistryRoutes {
  import opened Base
  import opened OrderedMaps
  import opened Registry

  /** What a handler's reply carries besides `success` and `message`. */
  datatype Payload = NoData | One(instance: ServiceInstance) | Many(instances: seq<ServiceInstance>, count: nat)

  /** A reply: the status, `success`, `message` when there is one, and the payload. */
  datatype Reply = Reply(status: nat, success: bool, message: Option<string>, payload: Payload)

  /** `!registration.port`: an absent port or port 0. */
  predicate PortMissing(port: Option<int>) {
    port.None? || port.value == 0
  }

  /** `POST /register`: a registration lacking a name, an address or a port is refused with 400
      and stores nothing; any other is stored and answered 201 with the stored instance. */
  method PostRegister(registry: RegistryService, body: Registration, now: int) returns (r: Reply)
    requires registry.Valid()
    modifies registry
    ensures registry.Valid() && registry.timerRunning == old(registry.timerRunning)
    ensures r.status == 400 <==> !Truthy(body.name) || !Truthy(body.address) || PortMissing(body.port)
    ensures r.status == 400 ==>
              r == Reply(400, false, Some("Missing required fields: name, address, port"), NoData)
              && registry.services == old(registry.services)
    ensures r.status != 400 ==>
              r == Reply(201, true, Some("Service registered successfully"), One(NewInstance(body, now)))
              && registry.services == old(registry.services).Set(GenerateServiceId(body), NewInstance(body, now))
  {
    if !Truthy(body.name) || !Truthy(body.address) || PortMissing(body.port) {
      return Reply(400, false, Some("Missing required fields: name, address, port"), NoData);
    }
    var instance := registry.Register(body, now);
    r := Reply(201, true, Some("Service registered successfully"), One(instance));
  }

  /** `DELETE /unregister/:serviceId`: 200 when the id was registered, 404 otherwise. */
  method DeleteUnregister(registry: RegistryService, serviceId: string) returns (r: Reply)
    requires registry.Valid()
    modifies registry
    ensures registry.Valid() && registry.timerRunning == old(registry.timerRunning)
    ensures registry.services == old(registry.services).Delete(serviceId)
    ensures serviceId in old(registry.services.table) ==> r == Reply(200, true, Some("Service unregistered successfully"), NoData)
    ensures serviceId !in old(registry.services.table) ==> r == Reply(404, false, Some("Service not found"), NoData)
  {
    var success := registry.Unregister(serviceId);
    if success {
      r := Reply(200, true, Some("Service unregistered successfully"), NoData);
    } else {
      r := Reply(404, false, Some("Service not found"), NoData);
    }
  }

  /** `POST /heartbeat/:serviceId`: 200 when the id is registered, which refreshes it; 404
      otherwise, changing nothing. */
  method PostHeartbeat(registry: RegistryService, serviceId: string, now: int) returns (r: Reply)
    requires registry.Valid()
    modifies registry
    ensures registry.Valid() && registry.timerRunning == old(registry.timerRunning)
    ensures serviceId in old(registry.services.table) ==>
              r == Reply(200, true, Some("Heartbeat received"), NoData)
              && registry.services == old(registry.services).Set(serviceId, old(registry.services.table[serviceId]).(lastHeartbeat := now, status := UP))
    ensures serviceId !in old(registry.services.table) ==>
              r == Reply(404, false, Some("Service not found"), NoData) && registry.services == old(registry.services)
  {
    var success := registry.Heartbeat(serviceId, now);
    if success {
      r := Reply(200, true, Some("Heartbeat received"), NoData);
    } else {
      r := Reply(404, false, Some("Service not found"), NoData);
    }
  }

  /** The list reply of the read-only routes: `count` is the length of `data`. */
  function ListReply(instances: seq<ServiceInstance>): (r: Reply)
    ensures r.status == 200 && r.success && r.payload.Many?
    ensures r.payload.instances == instances && r.payload.count == |r.payload.instances|
  {
    Reply(200, true, None, Many(instances, |instances|))
  }

  /** `POST /discover`: 400 without a name; otherwise the discovered instances and their count. */
  function PostDiscover(registry: RegistryService, d: ServiceDiscovery): (r: Reply)
    requires registry.Valid()
    reads registry
    ensures r.status == 400 <==> !Truthy(d.name)
    ensures r.status == 400 ==> r == Reply(400, false, Some("Service name is required"), NoData)
    ensures r.status != 400 ==> r == ListReply(registry.Discover(d))
  {
    if !Truthy(d.name) then Reply(400, false, Some("Service name is required"), NoData)
    else ListReply(registry.Discover(d))
  }

  /** `GET /services`: every instance, in registration order, and their count. */
  function GetServices(registry: RegistryService): (r: Reply)
    requires registry.Valid()
    reads registry
    ensures r.payload.Many? && r.payload.count == |registry.services.table|
    ensures r.payload.instances == registry.GetAllServices()
  {
    ListReply(registry.GetAllServices())
  }

  /** `GET /services/:serviceName`: every instance of the name, UP or not, and their count. */
  function GetServicesByName(registry: RegistryService, serviceName: string): (r: Reply)
    requires registry.Valid()
    reads registry
    ensures r.payload.Many? && r.payload.count == |r.payload.instances|
    ensures forall x :: x in r.payload.instances <==> x in registry.GetAllServices() && x.name == Some(serviceName)
  {
    ListReply(registry.GetServiceInstances(serviceName))
  }

  /** The reply of `GET /health`. */
  datatype Health = Health(success: bool, status: string, timestamp: string, serviceCount: nat)

  /** `GET /health`: UP, with the number of registered instances, whatever their status. */
  function GetHealth(registry: RegistryService, timestamp: string): (h: Health)
    requires registry.Valid()
    reads registry
    ensures h.success && h.status == "UP" && h.timestamp == timestamp
    ensures h.serviceCount == |registry.services.table|
  {
    Health(true, "UP", timestamp, |registry.GetAllServices()|)
  }

  /** A service that registers and then heartbeats with the same information finds its record:
      the heartbeat id the client computes is the one the registration was filed under. */
  method RegisterThenHeartbeat(registry: RegistryService, info: ServiceInfo, registeredAt: int, beatAt: int)
    returns (registered: Reply, beat: Reply)
    requires registry.Valid() && info.name != "" && info.address != "" && info.port != 0
    modifies registry
    ensures registered.status == 201
    ensures beat == Reply(200, true, Some("Heartbeat received"), NoData)
    ensures ClientServiceId(info) in registry.services.table
    ensures registry.services.table[ClientServiceId(info)].lastHeartbeat == beatAt
    ensures registry.services.table[ClientServiceId(info)].status == UP
  {
    registered := PostRegister(registry, RegistrationOf(info), registeredAt);
    ClientIdMatches(info);
    beat := PostHeartbeat(registry, ClientServiceId(info), beatAt);
  }
}
