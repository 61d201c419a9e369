/** The older LiteNetLib client component (Client/UnityClient.cs): a status, the
    server peer, and the last disconnect information. `ConnectAsync` is split at
    its `await`. The `UnityNetwork` base class is not part of this model; its
    send guard and framing are read as the network's (`ValidateIsReadyToSend`,
    `Frame`). */
module UnityClients {
  import opened NetTypes
  import opened Networking

  type PeerRef = nat

  /** LiteNetLib's `DisconnectInfo`, reduced to its reason; `reason == 0` is the
      default value a client holds before any disconnect. */
  datatype DisconnectInfo = DisconnectInfo(reason: nat)

  /** `ConnectResult`: whether the connection was made, and the last disconnect reason. */
  datatype ConnectResult = ConnectResult(success: bool, failReason: nat)

  datatype UnityClientEffect =
    | ManagerStarted
    | ConnectRequested(endPoint: nat)
    | AllDisconnected
    | EventsPolled
    | ManagerStopped
    | SentToServer(server: PeerRef, data: seq<byte>, deliveryMethod: nat)
    | Connected(server: PeerRef)
    | Disconnected(server: PeerRef, info: DisconnectInfo)
    | RequestRejected(request: nat)

  class UnityClient {
    var status: LocalConnectionStatus
    var server: Option<PeerRef>
    var previousDisconnectInfo: DisconnectInfo
    ghost var effects: seq<UnityClientEffect>

    /** A connected client knows its server. */
    ghost predicate Valid()
      reads this
    {
      status == Started ==> server.Some?
    }

    constructor ()
      ensures Valid() && status == Stopped && server == None && previousDisconnectInfo == DisconnectInfo(0) && effects == []
    {
      status := Stopped;
      server := None;
      previousDisconnectInfo := DisconnectInfo(0);
      effects := [];
    }

    /** `IsReady`: exactly when connected. */
    predicate IsReady()
      reads this
    {
      status == Started
    }

    /** `ConnectAsync` up to its wait: refused while connecting or connected;
        otherwise Starting, and the manager is started and asked to connect. */
    method ConnectAsync(endPoint: nat) returns (r: Option<Result<ConnectResult>>)
      requires Valid()
      modifies this`status, this`effects
      ensures Valid()
      ensures old(status) == Starting ==> r == Some(Failure(AlreadyStarting)) && status == old(status) && effects == old(effects)
      ensures old(status) == Started ==> r == Some(Failure(AlreadyStarted)) && status == old(status) && effects == old(effects)
      ensures old(status) == Stopped ==>
                r == None && status == Starting && effects == old(effects) + [ManagerStarted, ConnectRequested(endPoint)]
    {
      match status {
        case Starting => return Some(Failure(AlreadyStarting));
        case Started => return Some(Failure(AlreadyStarted));
        case Stopped =>
      }
      status := Starting;
      effects := effects + [ManagerStarted, ConnectRequested(endPoint)];
      r := None;
    }

    /** The rest of `ConnectAsync`, once the status has left Starting: success exactly
        when connected, with the last disconnect reason. */
    method FinishConnectAsync() returns (r: ConnectResult)
      requires status != Starting
      ensures r.success <==> status == Started
      ensures r.failReason == previousDisconnectInfo.reason
    {
      r := ConnectResult(status == Started, previousDisconnectInfo.reason);
    }

    /** `Disconnect(pollEvents)`: disconnects everything, polls events if asked, stops
        the manager, and always ends Stopped. */
    method Disconnect(pollEvents: bool)
      modifies this`status, this`effects
      ensures status == Stopped
      ensures effects == old(effects) + [AllDisconnected] + (if pollEvents then [EventsPolled] else []) + [ManagerStopped]
    {
      effects := effects + [AllDisconnected];
      if pollEvents {
        effects := effects + [EventsPolled];
      }
      effects := effects + [ManagerStopped];
      status := Stopped;
    }

    /** `SendAsPacketHandlerToServer`: refused unless ready; otherwise the framed
        packet goes to the server. */
    method SendAsPacketHandlerToServer(handler: PacketHandler, data: seq<byte>, deliveryMethod: nat) returns (r: Outcome)
      requires Valid()
      modifies this`effects
      ensures r == ValidateIsReadyToSend(status)
      ensures r.Fail? ==> effects == old(effects)
      ensures r.Ok? ==> effects == old(effects) + [SentToServer(server.value, Frame(handler.handlerId, data), deliveryMethod)]
    {
      r := ValidateIsReadyToSend(status);
      if r.Fail? {
        return;
      }
      effects := effects + [SentToServer(server.value, Frame(handler.handlerId, data), deliveryMethod)];
    }

    /** `OnPeerConnected`: `Connected` is raised, then the client is Started with
        that peer as its server. */
    method OnPeerConnected(peer: PeerRef)
      modifies this`status, this`server, this`effects
      ensures Valid() && status == Started && server == Some(peer)
      ensures effects == old(effects) + [Connected(peer)]
    {
      effects := effects + [Connected(peer)];
      status := Started;
      server := Some(peer);
    }

    /** `OnPeerDisconnected`: `Disconnected` is raised only if the client was connected;
        it then ends Stopped without a server, keeping the disconnect information. */
    method OnPeerDisconnected(peer: PeerRef, info: DisconnectInfo)
      modifies this`status, this`server, this`previousDisconnectInfo, this`effects
      ensures Valid() && status == Stopped && server == None && previousDisconnectInfo == info
      ensures old(status) == Started ==> effects == old(effects) + [Disconnected(peer, info)]
      ensures old(status) != Started ==> effects == old(effects)
    {
      if status == Started {
        effects := effects + [Disconnected(peer, info)];
      }
      status := Stopped;
      server := None;
      previousDisconnectInfo := info;
    }

    /** `OnConnectionRequest`: a client rejects every incoming request. */
    method OnConnectionRequest(request: nat)
      modifies this`effects
      ensures effects == old(effects) + [RequestRejected(request)]
    {
      effects := effects + [RequestRejected(request)];
    }
  }
}
