/** The in-memory server transport's start (Transports/InMemory/InMemoryTransportServer.cs):
    a registry from virtual port to server, static in the source and so one
    object here that every server refers to. */
module InMemory {
  import opened NetTypes

  /** `InMemoryTransportServer.Servers`. */
  class ServerRegistry {
    var servers: map<int, InMemoryTransportServer>

    constructor ()
      ensures servers == map[]
    {
      servers := map[];
    }
  }

  class InMemoryTransportServer {
    const registry: ServerRegistry
    var virtualPort: int
    var status: LocalConnectionStatus

    constructor (registry: ServerRegistry, virtualPort: int)
      ensures this.registry == registry && this.virtualPort == virtualPort && status == Stopped
    {
      this.registry := registry;
      this.virtualPort := virtualPort;
      status := Stopped;
    }

    /** `StartConnection`: a port already in the registry fails and changes nothing;
        a free one is claimed by this server, which is then Started. */
    method StartConnection() returns (r: Outcome)
      modifies registry`servers, this`status
      ensures virtualPort in old(registry.servers) ==>
                r == Fail(PortInUse(virtualPort)) && registry.servers == old(registry.servers) && status == old(status)
      ensures virtualPort !in old(registry.servers) ==>
                r == Ok && registry.servers == old(registry.servers)[virtualPort := this] && status == Started
    {
      if virtualPort in registry.servers {
        return Fail(PortInUse(virtualPort));
      }
      registry.servers := registry.servers[virtualPort := this];
      status := Started;
      r := Ok;
    }
  }

  /** The registry is shared: once one server has claimed a port, a second server on
      the same port fails to start, and the first keeps the port. */
  method TwoServersOnOnePort(port: int) returns (first: Outcome, second: Outcome)
    ensures first == Ok && second == Fail(PortInUse(port))
  {
    var registry := new ServerRegistry();
    var a := new InMemoryTransportServer(registry, port);
    var b := new InMemoryTransportServer(registry, port);
    first := a.StartConnection();
    second := b.StartConnection();
    assert registry.servers[port] == a && b.status == Stopped;
  }
}
