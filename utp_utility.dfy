/** Relay endpoint selection and the assembly of relay server data for a host
    and for a joining player (UtpUtility.cs). The Relay allocation records and
    the Unity Transport structures are plain values here; the unmanaged-memory
    conversions of their byte arrays are identities. */
module UtpUtility {
  import opened NetTypes

  datatype RelayServerEndpoint = RelayServerEndpoint(connectionType: string, host: string, port: int)

  /** A host's Relay allocation. */
  datatype Allocation = Allocation(
    serverEndpoints: seq<RelayServerEndpoint>,
    allocationIdBytes: seq<byte>,
    connectionData: seq<byte>,
    key: seq<byte>)

  /** A joining player's Relay allocation, which also carries the host's connection data. */
  datatype JoinAllocation = JoinAllocation(
    serverEndpoints: seq<RelayServerEndpoint>,
    allocationIdBytes: seq<byte>,
    connectionData: seq<byte>,
    hostConnectionData: seq<byte>,
    key: seq<byte>)

  /** Unity Transport's `RelayServerData`; `port` is the endpoint's port cast to `ushort`. */
  datatype RelayServerData = RelayServerData(
    host: string,
    port: int,
    allocationId: seq<byte>,
    connectionData: seq<byte>,
    hostConnectionData: seq<byte>,
    key: seq<byte>,
    isSecure: bool)

  /** The connection type both builders use when none is given. */
  const DefaultConnectionType: string := "dtls"

  /** `(ushort)port`: the low sixteen bits. */
  function ToUShort(port: int): (r: int)
    ensures 0 <= r < 0x1_0000
    ensures (port - r) % 0x1_0000 == 0
  {
    port % 0x1_0000
  }

  /** Endpoint `i` is the first of `endpoints` of the requested type. */
  ghost predicate IsFirstMatch(endpoints: seq<RelayServerEndpoint>, connectionType: string, i: int)
  {
    0 <= i < |endpoints| && endpoints[i].connectionType == connectionType &&
    forall j :: 0 <= j < i ==> endpoints[j].connectionType != connectionType
  }

  /** `GetEndpointForConnectionType`: the first endpoint in list order whose type is
      the requested one, and none exactly when no endpoint has that type. */
  method GetEndpointForConnectionType(endpoints: seq<RelayServerEndpoint>, connectionType: string)
    returns (r: Option<RelayServerEndpoint>)
    ensures r.None? <==> forall i :: 0 <= i < |endpoints| ==> endpoints[i].connectionType != connectionType
    ensures r.Some? ==> exists i :: IsFirstMatch(endpoints, connectionType, i) && endpoints[i] == r.value
  {
    for i := 0 to |endpoints|
      invariant forall j :: 0 <= j < i ==> endpoints[j].connectionType != connectionType
    {
      if endpoints[i].connectionType == connectionType {
        assert IsFirstMatch(endpoints, connectionType, i);
        return Some(endpoints[i]);
      }
    }
    r := None;
  }

  /** `CreateHostRelayData`: fails when no endpoint has the requested type; otherwise
      the first such endpoint, with the host's own connection data in both slots and
      a secure connection exactly for "dtls". */
  method CreateHostRelayData(allocation: Allocation, connectionType: string) returns (r: Result<RelayServerData>)
    ensures r.Failure? <==>
            forall i :: 0 <= i < |allocation.serverEndpoints| ==> allocation.serverEndpoints[i].connectionType != connectionType
    ensures r.Failure? ==> r.error == EndpointNotFound(connectionType)
    ensures r.Success? ==>
              (exists i :: IsFirstMatch(allocation.serverEndpoints, connectionType, i) &&
                           r.value.host == allocation.serverEndpoints[i].host &&
                           r.value.port == ToUShort(allocation.serverEndpoints[i].port)) &&
              r.value.allocationId == allocation.allocationIdBytes &&
              r.value.connectionData == allocation.connectionData &&
              r.value.hostConnectionData == allocation.connectionData &&
              r.value.key == allocation.key &&
              (r.value.isSecure <==> connectionType == "dtls")
  {
    var endpoint := GetEndpointForConnectionType(allocation.serverEndpoints, connectionType);
    if endpoint.None? {
      return Failure(EndpointNotFound(connectionType));
    }
    var e := endpoint.value;
    r := Success(RelayServerData(e.host, ToUShort(e.port), allocation.allocationIdBytes,
                                 allocation.connectionData, allocation.connectionData, allocation.key,
                                 connectionType == "dtls"));
  }

  /** `CreatePlayerRelayData`: as for the host, but the player passes its own
      connection data and then the host's. */
  method CreatePlayerRelayData(allocation: JoinAllocation, connectionType: string) returns (r: Result<RelayServerData>)
    ensures r.Failure? <==>
            forall i :: 0 <= i < |allocation.serverEndpoints| ==> allocation.serverEndpoints[i].connectionType != connectionType
    ensures r.Failure? ==> r.error == EndpointNotFound(connectionType)
    ensures r.Success? ==>
              (exists i :: IsFirstMatch(allocation.serverEndpoints, connectionType, i) &&
                           r.value.host == allocation.serverEndpoints[i].host &&
                           r.value.port == ToUShort(allocation.serverEndpoints[i].port)) &&
              r.value.allocationId == allocation.allocationIdBytes &&
              r.value.connectionData == allocation.connectionData &&
              r.value.hostConnectionData == allocation.hostConnectionData &&
              r.value.key == allocation.key &&
              (r.value.isSecure <==> connectionType == "dtls")
  {
    var endpoint := GetEndpointForConnectionType(allocation.serverEndpoints, connectionType);
    if endpoint.None? {
      return Failure(EndpointNotFound(connectionType));
    }
    var e := endpoint.value;
    r := Success(RelayServerData(e.host, ToUShort(e.port), allocation.allocationIdBytes,
                                 allocation.connectionData, allocation.hostConnectionData, allocation.key,
                                 connectionType == "dtls"));
  }

  /** `CreateHostRelayData(allocation)`, with the default connection type: the relay
      connection is secure whenever an endpoint of that type exists. */
  method CreateHostRelayDataByDefault(allocation: Allocation) returns (r: Result<RelayServerData>)
    ensures r.Failure? <==>
            forall i :: 0 <= i < |allocation.serverEndpoints| ==> allocation.serverEndpoints[i].connectionType != DefaultConnectionType
    ensures r.Success? ==> r.value.isSecure && r.value.hostConnectionData == allocation.connectionData
  {
    r := CreateHostRelayData(allocation, DefaultConnectionType);
  }

  /** `CreatePlayerRelayData(allocation)`, with the default connection type: the relay
      connection is secure whenever an endpoint of that type exists. */
  method CreatePlayerRelayDataByDefault(allocation: JoinAllocation) returns (r: Result<RelayServerData>)
    ensures r.Failure? <==>
            forall i :: 0 <= i < |allocation.serverEndpoints| ==> allocation.serverEndpoints[i].connectionType != DefaultConnectionType
    ensures r.Success? ==> r.value.isSecure && r.value.hostConnectionData == allocation.hostConnectionData
  {
    r := CreatePlayerRelayData(allocation, DefaultConnectionType);
  }
}
