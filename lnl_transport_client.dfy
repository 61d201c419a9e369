/** The LiteNetLib client transport's status machine
    (Transports/LiteNetLib/LnlTransportClient.cs). LiteNetLib's `NetManager` is
    an oracle: what it is asked to do is recorded, and its peer callbacks are
    calls into this class. `StartConnection` is split at its `await`. */
module LnlTransportClients {
  import opened NetTypes

  type PeerRef = nat

  /** What the transport does outside its status, in order. */
  datatype LnlClientEffect =
    | ManagerStarted
    | ConnectRequested(address: string, port: int, key: string)
    | ConnectionStarted(peerId: PeerRef)
    | ConnectionStopped(peerId: PeerRef)
    | RequestRejected(request: nat)

  class LnlTransportClient {
    var status: LocalConnectionStatus
    var remoteAddress: string
    var port: int
    var connectionKey: string
    ghost var effects: seq<LnlClientEffect>

    constructor (remoteAddress: string, port: int, connectionKey: string)
      ensures status == Stopped && effects == []
      ensures this.remoteAddress == remoteAddress && this.port == port && this.connectionKey == connectionKey
    {
      status := Stopped;
      this.remoteAddress := remoteAddress;
      this.port := port;
      this.connectionKey := connectionKey;
      effects := [];
    }

    /** `StartConnection` up to its wait: Starting is set before the manager is
        started and asked to connect. */
    method StartConnection()
      modifies this`status, this`effects
      ensures status == Starting
      ensures effects == old(effects) + [ManagerStarted, ConnectRequested(remoteAddress, port, connectionKey)]
    {
      status := Starting;
      effects := effects + [ManagerStarted, ConnectRequested(remoteAddress, port, connectionKey)];
    }

    /** The rest of `StartConnection`, once the status has left Starting: it completes
        normally only if the connection was made. */
    method FinishStartConnection() returns (r: Outcome)
      requires status != Starting
      ensures r == Ok <==> status == Started
      ensures r != Ok ==> r == Fail(ConnectFailed)
    {
      if status != Started {
        return Fail(ConnectFailed);
      }
      r := Ok;
    }

    /** `OnPeerConnected`: Started is set before the base class raises the started event. */
    method OnPeerConnected(peerId: PeerRef)
      modifies this`status, this`effects
      ensures status == Started && effects == old(effects) + [ConnectionStarted(peerId)]
    {
      status := Started;
      effects := effects + [ConnectionStarted(peerId)];
    }

    /** `OnPeerDisconnected`: the stopped event is raised only when the connection was
        Started; the transport always ends Stopped. */
    method OnPeerDisconnected(peerId: PeerRef)
      modifies this`status, this`effects
      ensures status == Stopped
      ensures old(status) == Started ==> effects == old(effects) + [ConnectionStopped(peerId)]
      ensures old(status) != Started ==> effects == old(effects)
    {
      if status == Started {
        status := Stopped;
        effects := effects + [ConnectionStopped(peerId)];
      }
      status := Stopped;
    }

    /** `OnConnectionRequest`: a client rejects every incoming request. */
    method OnConnectionRequest(request: nat)
      modifies this`effects
      ensures effects == old(effects) + [RequestRejected(request)]
    {
      effects := effects + [RequestRejected(request)];
    }
  }

  /** The connection's own story: starting and then being told the peer connected
      lets the start complete; starting and then being told the peer disconnected
      makes it fail, with no stopped event raised. */
  method StartOutcomes(address: string, port: int, key: string, peerId: PeerRef)
    returns (connected: Outcome, refused: Outcome)
    ensures connected == Ok && refused == Fail(ConnectFailed)
  {
    var a := new LnlTransportClient(address, port, key);
    a.StartConnection();
    a.OnPeerConnected(peerId);
    connected := a.FinishStartConnection();
    var b := new LnlTransportClient(address, port, key);
    b.StartConnection();
    b.OnPeerDisconnected(peerId);
    assert b.effects == [ManagerStarted, ConnectRequested(address, port, key)];
    refused := b.FinishStartConnection();
  }
}
