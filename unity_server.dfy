/** The older LiteNetLib server component (Transports/LiteNetLib/UnityServer.cs):
    whether it is created, and the list of connected peers. The `UnityNetwork`
    base class is not part of this model; its send guard and framing are read
    as the network's. */
module UnityServers {
  import opened NetTypes
  import opened Networking

  type PeerRef = nat

  datatype UnityServerEffect =
    | ManagerStarted(port: int)
    | AllDisconnected
    | EventsPolled
    | ManagerStopped
    | SentToAll(data: seq<byte>, deliveryMethod: nat)
    | PeerDisconnectRequested(peer: PeerRef)
    | PeerConnected(peer: PeerRef)
    | PeerDisconnected(peer: PeerRef, reason: nat)
    | RequestAcceptedIfKey(request: nat, key: string)

  /** `List.Remove`: drops the first occurrence, if any, and keeps the rest in order. */
  function RemoveFirst(peers: seq<PeerRef>, peer: PeerRef): (r: seq<PeerRef>)
    ensures peer in peers ==> |r| == |peers| - 1
    ensures peer !in peers ==> r == peers
  {
    if peers == [] then []
    else if peers[0] == peer then peers[1..]
    else [peers[0]] + RemoveFirst(peers[1..], peer)
  }

  /** Removing takes away exactly one occurrence of a listed peer and nothing else. */
  lemma {:induction false} RemoveFirstMultiset(peers: seq<PeerRef>, peer: PeerRef)
    ensures multiset(RemoveFirst(peers, peer)) == multiset(peers) - multiset{peer}
  {
    if peers != [] {
      assert peers == [peers[0]] + peers[1..];
      if peers[0] != peer {
        RemoveFirstMultiset(peers[1..], peer);
      }
    }
  }

  /** A listed peer is removed at its first occurrence `i`; the peers before and after
      it keep their order. */
  lemma {:induction false} RemoveFirstAtFirstOccurrence(peers: seq<PeerRef>, peer: PeerRef, i: nat)
    requires i < |peers| && peers[i] == peer && peer !in peers[..i]
    ensures RemoveFirst(peers, peer) == peers[..i] + peers[i + 1..]
  {
    if i > 0 {
      assert peers[0] in peers[..i];
      assert peers[1..][..i - 1] == peers[1..i];
      RemoveFirstAtFirstOccurrence(peers[1..], peer, i - 1);
      assert peers[..i] == [peers[0]] + peers[1..i];
      assert peers[1..][i..] == peers[i + 1..];
    }
  }

  /** A peer that connects and then disconnects leaves the list as it was before it
      connected, whenever it was not listed already. */
  lemma {:induction false} ConnectThenDisconnect(peers: seq<PeerRef>, peer: PeerRef)
    requires peer !in peers
    ensures RemoveFirst(peers + [peer], peer) == peers
  {
    if peers != [] {
      assert (peers + [peer])[1..] == peers[1..] + [peer];
      ConnectThenDisconnect(peers[1..], peer);
    } else {
      assert [peer][1..] == [];
    }
  }

  class UnityServer {
    var isCreated: bool
    var connectedPeers: seq<PeerRef>
    var connectionKey: string
    ghost var effects: seq<UnityServerEffect>

    constructor (connectionKey: string)
      ensures !isCreated && connectedPeers == [] && this.connectionKey == connectionKey && effects == []
    {
      isCreated := false;
      connectedPeers := [];
      this.connectionKey := connectionKey;
      effects := [];
    }

    /** `IsReady`: exactly when created. */
    predicate IsReady()
      reads this
    {
      isCreated
    }

    /** `Create`: refused when already created; otherwise the manager is started on
        the port and the server is created. */
    method Create(port: int) returns (r: Outcome)
      modifies this`isCreated, this`effects
      ensures old(isCreated) ==> r == Fail(AlreadyCreated) && isCreated && effects == old(effects)
      ensures !old(isCreated) ==> r == Ok && isCreated && effects == old(effects) + [ManagerStarted(port)]
    {
      if isCreated {
        return Fail(AlreadyCreated);
      }
      effects := effects + [ManagerStarted(port)];
      isCreated := true;
      r := Ok;
    }

    /** `Close(pollEvents)`: nothing when not created; otherwise everything is
        disconnected, events are polled if asked, the manager stops and the server is
        no longer created. */
    method Close(pollEvents: bool)
      modifies this`isCreated, this`effects
      ensures !isCreated
      ensures !old(isCreated) ==> effects == old(effects)
      ensures old(isCreated) ==>
                effects == old(effects) + [AllDisconnected] + (if pollEvents then [EventsPolled] else []) + [ManagerStopped]
    {
      if !isCreated {
        return;
      }
      effects := effects + [AllDisconnected];
      if pollEvents {
        effects := effects + [EventsPolled];
      }
      effects := effects + [ManagerStopped];
      isCreated := false;
    }

    /** `SendAsPacketHandlerToAll`: refused unless ready; otherwise the framed packet
        goes to every peer. */
    method SendAsPacketHandlerToAll(handler: PacketHandler, data: seq<byte>, deliveryMethod: nat) returns (r: Outcome)
      modifies this`effects
      ensures r.Ok? <==> isCreated
      ensures r.Fail? ==> r.error == NotReadyToSend && effects == old(effects)
      ensures r.Ok? ==> effects == old(effects) + [SentToAll(Frame(handler.handlerId, data), deliveryMethod)]
    {
      if !IsReady() {
        return Fail(NotReadyToSend);
      }
      effects := effects + [SentToAll(Frame(handler.handlerId, data), deliveryMethod)];
      r := Ok;
    }

    /** `DisconnectPeer`: asks the manager to disconnect the peer. */
    method DisconnectPeer(peer: PeerRef)
      modifies this`effects
      ensures effects == old(effects) + [PeerDisconnectRequested(peer)]
    {
      effects := effects + [PeerDisconnectRequested(peer)];
    }

    /** `OnPeerConnected`: the peer is appended, then `PeerConnected` is raised. */
    method OnPeerConnected(peer: PeerRef)
      modifies this`connectedPeers, this`effects
      ensures connectedPeers == old(connectedPeers) + [peer]
      ensures effects == old(effects) + [PeerConnected(peer)]
    {
      connectedPeers := connectedPeers + [peer];
      effects := effects + [PeerConnected(peer)];
    }

    /** `OnPeerDisconnected`: the peer's first occurrence is removed, then
        `PeerDisconnected` is raised. */
    method OnPeerDisconnected(peer: PeerRef, reason: nat)
      modifies this`connectedPeers, this`effects
      ensures connectedPeers == RemoveFirst(old(connectedPeers), peer)
      ensures multiset(connectedPeers) == multiset(old(connectedPeers)) - multiset{peer}
      ensures effects == old(effects) + [PeerDisconnected(peer, reason)]
    {
      RemoveFirstMultiset(connectedPeers, peer);
      connectedPeers := RemoveFirst(connectedPeers, peer);
      effects := effects + [PeerDisconnected(peer, reason)];
    }

    /** `OnConnectionRequest`: accepted only with the server's connection key. */
    method OnConnectionRequest(request: nat)
      modifies this`effects
      ensures effects == old(effects) + [RequestAcceptedIfKey(request, connectionKey)]
    {
      effects := effects + [RequestAcceptedIfKey(request, connectionKey)];
    }
  }
}
