/** Connection identity: the `NetworkConnection` value every remote peer is
    known by, the factory that numbers them, and the tracker that resolves a
    (transport, transport-local id) pair to its connection. */
module Connections {
  import opened NetTypes

  /** One remote peer. All fields are fixed at construction; `id` is network-wide,
      `transportConnectionId` is meaningful only within `transport`. */
  datatype NetworkConnection = NetworkConnection(id: int, transport: TransportId, transportConnectionId: int)

  /** The questions a connection forwards to its transport. */
  datatype TransportQueries = TransportQueries(
    connectionStatus: (TransportId, int) -> RemoteConnectionStatus,
    mtu: (TransportId, int, SendType) -> int)

  /** A call the connection makes on its transport. */
  datatype TransportRequest = DisconnectConnection(transport: TransportId, connectionId: int)

  /** `Status`: asked of the owning transport each time, under the transport-local id;
      nothing is cached. */
  function Status(c: NetworkConnection, q: TransportQueries): (s: RemoteConnectionStatus)
    ensures s == q.connectionStatus(c.transport, c.transportConnectionId)
  {
    q.connectionStatus(c.transport, c.transportConnectionId)
  }

  /** `GetMtu`: the owning transport's MTU for this connection's transport-local id. */
  function GetMtu(c: NetworkConnection, sendType: SendType, q: TransportQueries): (m: int)
    ensures m == q.mtu(c.transport, c.transportConnectionId, sendType)
  {
    q.mtu(c.transport, c.transportConnectionId, sendType)
  }

  /** `Disconnect`: the one request it makes goes to its own transport, naming its
      transport-local id (not its network-wide id). */
  function Disconnect(c: NetworkConnection): (r: TransportRequest)
    ensures r.transport == c.transport && r.connectionId == c.transportConnectionId
  {
    DisconnectConnection(c.transport, c.transportConnectionId)
  }

  /** Two connection objects for the same transport-local peer report the same status
      and MTU whatever their network-wide ids: only the pair is ever asked about. */
  lemma AnswersDependOnlyOnTransportPair(a: NetworkConnection, b: NetworkConnection, q: TransportQueries, sendType: SendType)
    requires a.transport == b.transport && a.transportConnectionId == b.transportConnectionId
    ensures Status(a, q) == Status(b, q) && GetMtu(a, sendType, q) == GetMtu(b, sendType, q)
    ensures Disconnect(a) == Disconnect(b)
  {
  }

  /** Hands out connections numbered by a counter that starts at 0. */
  class ConnectionFactory {
    var nextConnectionId: int

    constructor ()
      ensures nextConnectionId == 0
    {
      nextConnectionId := 0;
    }

    /** `CreateNetworkConnection`: the connection gets the current counter value, which
        then goes up by one; transport and transport-local id are kept as given. */
    method CreateNetworkConnection(transport: TransportId, transportConnectionId: int) returns (c: NetworkConnection)
      modifies this
      ensures c == NetworkConnection(old(nextConnectionId), transport, transportConnectionId)
      ensures nextConnectionId == old(nextConnectionId) + 1
    {
      c := NetworkConnection(nextConnectionId, transport, transportConnectionId);
      nextConnectionId := nextConnectionId + 1;
    }
  }

  /** Creating connections one after the other issues strictly increasing ids, starting
      from the counter's value: the `k`-th connection created gets `next + k`. */
  method CreateMany(f: ConnectionFactory, pairs: seq<(TransportId, int)>) returns (cs: seq<NetworkConnection>)
    modifies f
    ensures |cs| == |pairs| && f.nextConnectionId == old(f.nextConnectionId) + |pairs|
    ensures forall k :: 0 <= k < |cs| ==> cs[k] == NetworkConnection(old(f.nextConnectionId) + k, pairs[k].0, pairs[k].1)
    ensures forall j, k :: 0 <= j < k < |cs| ==> cs[j].id < cs[k].id
  {
    cs := [];
    for i := 0 to |pairs|
      invariant |cs| == i && f.nextConnectionId == old(f.nextConnectionId) + i
      invariant forall k :: 0 <= k < i ==> cs[k] == NetworkConnection(old(f.nextConnectionId) + k, pairs[k].0, pairs[k].1)
    {
      var c := f.CreateNetworkConnection(pairs[i].0, pairs[i].1);
      cs := cs + [c];
    }
  }

  /** The tracker's two dictionaries agree: every connection is stored under its own
      id, and under its transport and transport-local id, and nowhere else. */
  ghost predicate InStep(connections: map<int, NetworkConnection>, lookUp: map<TransportId, map<int, NetworkConnection>>)
  {
    (forall id | id in connections :: connections[id].id == id) &&
    (forall id | id in connections ::
       connections[id].transport in lookUp &&
       connections[id].transportConnectionId in lookUp[connections[id].transport] &&
       lookUp[connections[id].transport][connections[id].transportConnectionId] == connections[id]) &&
    (forall t, k | t in lookUp && k in lookUp[t] ::
       lookUp[t][k].transport == t && lookUp[t][k].transportConnectionId == k &&
       lookUp[t][k].id in connections && connections[lookUp[t][k].id] == lookUp[t][k])
  }

  /** Maps (transport, transport-local id) to the network-wide connection. */
  class ConnectionTracker {
    var connections: map<int, NetworkConnection>
    var connectionLookUp: map<TransportId, map<int, NetworkConnection>>
    const factory: ConnectionFactory

    /** Both dictionaries in step, and every id issued lies below the factory's counter,
        so a new connection's id is never one already in use. */
    ghost predicate Valid()
      reads this, factory
    {
      InStep(connections, connectionLookUp) && 0 <= factory.nextConnectionId &&
      forall id | id in connections :: 0 <= id < factory.nextConnectionId
    }

    constructor ()
      ensures Valid() && fresh(factory)
      ensures connections == map[] && connectionLookUp == map[] && factory.nextConnectionId == 0
    {
      connections := map[];
      connectionLookUp := map[];
      factory := new ConnectionFactory();
    }

    /** `GetNetworkConnection`: the stored connection when the transport has an inner
        table holding the transport-local id, and null otherwise; keyed by transport
        first, so equal transport-local ids under different transports never meet. */
    function GetNetworkConnection(transport: TransportId, transportConnectionId: int): (r: Option<NetworkConnection>)
      reads this
      ensures transport !in connectionLookUp ==> r == None
      ensures transport in connectionLookUp && transportConnectionId !in connectionLookUp[transport] ==> r == None
      ensures r.Some? ==> transport in connectionLookUp && transportConnectionId in connectionLookUp[transport] &&
                          r.value == connectionLookUp[transport][transportConnectionId]
      ensures transport in connectionLookUp && transportConnectionId in connectionLookUp[transport] ==>
                r == Some(connectionLookUp[transport][transportConnectionId])
      ensures InStep(connections, connectionLookUp) && r.Some? ==>
                r.value.transport == transport && r.value.transportConnectionId == transportConnectionId &&
                r.value.id in connections && connections[r.value.id] == r.value
    {
      if transport in connectionLookUp && transportConnectionId in connectionLookUp[transport]
      then Some(connectionLookUp[transport][transportConnectionId])
      else None
    }

    /** `AddNetworkConnection`: a pair already tracked is a usage error and changes
        nothing; otherwise a connection with the next id is created and stored in both
        dictionaries, and every other pair resolves as before. */
    method AddNetworkConnection(transport: TransportId, transportConnectionId: int) returns (r: Result<NetworkConnection>)
      requires Valid()
      modifies this, factory
      ensures Valid()
      ensures old(GetNetworkConnection(transport, transportConnectionId)).Some? ==>
                r == Failure(DuplicateKey) && connections == old(connections) &&
                connectionLookUp == old(connectionLookUp) && factory.nextConnectionId == old(factory.nextConnectionId)
      ensures old(GetNetworkConnection(transport, transportConnectionId)).None? ==>
                r == Success(NetworkConnection(old(factory.nextConnectionId), transport, transportConnectionId)) &&
                factory.nextConnectionId == old(factory.nextConnectionId) + 1 &&
                connections == old(connections)[r.value.id := r.value] &&
                GetNetworkConnection(transport, transportConnectionId) == Some(r.value)
      ensures forall t: TransportId, k: int {:trigger GetNetworkConnection(t, k)} :: (t, k) != (transport, transportConnectionId) ==>
                GetNetworkConnection(t, k) == old(GetNetworkConnection(t, k))
    {
      if GetNetworkConnection(transport, transportConnectionId).Some? {
        return Failure(DuplicateKey);
      }
      var c := factory.CreateNetworkConnection(transport, transportConnectionId);
      var inner := if transport in connectionLookUp then connectionLookUp[transport] else map[];
      connections := connections[c.id := c];
      connectionLookUp := connectionLookUp[transport := inner[transportConnectionId := c]];
      r := Success(c);
    }

    /** `RemoveNetworkConnection`: an untracked pair is reported as not found and nothing
        changes; a tracked one leaves both dictionaries, and every other pair resolves
        as before. */
    method RemoveNetworkConnection(transport: TransportId, transportConnectionId: int) returns (removed: Option<NetworkConnection>)
      requires Valid()
      modifies this
      ensures Valid()
      ensures removed == old(GetNetworkConnection(transport, transportConnectionId))
      ensures removed.None? ==> connections == old(connections) && connectionLookUp == old(connectionLookUp)
      ensures removed.Some? ==> connections == old(connections) - {removed.value.id}
      ensures GetNetworkConnection(transport, transportConnectionId) == None
      ensures forall t: TransportId, k: int {:trigger GetNetworkConnection(t, k)} :: (t, k) != (transport, transportConnectionId) ==>
                GetNetworkConnection(t, k) == old(GetNetworkConnection(t, k))
    {
      removed := GetNetworkConnection(transport, transportConnectionId);
      if removed.None? {
        return;
      }
      var c := removed.value;
      connections := connections - {c.id};
      connectionLookUp := connectionLookUp[transport := connectionLookUp[transport] - {transportConnectionId}];
    }
  }

  /** The tracker resolves a pair to a connection that carries that very pair and is
      listed under its own id. */
  lemma LookupIsConsistent(connections: map<int, NetworkConnection>, lookUp: map<TransportId, map<int, NetworkConnection>>,
                           t: TransportId, k: int)
    requires InStep(connections, lookUp) && t in lookUp && k in lookUp[t]
    ensures lookUp[t][k].transport == t && lookUp[t][k].transportConnectionId == k
    ensures lookUp[t][k].id in connections && connections[lookUp[t][k].id] == lookUp[t][k]
  {
  }

  /** A pair resolves to at most one live connection: two connections in the id map
      with the same transport and transport-local id are the same connection. */
  lemma PairsAreUnique(connections: map<int, NetworkConnection>, lookUp: map<TransportId, map<int, NetworkConnection>>,
                       i: int, j: int)
    requires InStep(connections, lookUp) && i in connections && j in connections
    requires connections[i].transport == connections[j].transport
    requires connections[i].transportConnectionId == connections[j].transportConnectionId
    ensures i == j
  {
    var c := connections[i];
    assert lookUp[c.transport][c.transportConnectionId] == connections[i] == connections[j];
  }
}
