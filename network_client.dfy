/** The client flavour of the network (NetworkClient.cs): one transport, whose
    asynchronous start is split into the synchronous part (`StartConnection`)
    and its completion (`OnTransportStartCompleted`). */
module Clients {
  import opened NetTypes
  import opened Connections
  import opened Networking

  class NetworkClient {
    const net: Network
    var transport: TransportId
    /** How many `StartConnection` calls are still waiting for their transport's start
        (a stop between two starts leaves both waiting). */
    var pendingStarts: nat

    ghost predicate Valid()
      reads net, net.tracker, net.tracker.factory
    {
      net.Valid()
    }

    constructor (t: TransportId)
      ensures Valid() && fresh(net) && transport == t && pendingStarts == 0
      ensures net.status == Stopped && net.effects == [] && net.tracker.connections == map[]
    {
      net := new Network();
      transport := t;
      pendingStarts := 0;
    }

    /** `SetTransport`: replaces the transport, with no status check. */
    method SetTransport(t: TransportId)
      modifies this`transport
      ensures transport == t
    {
      transport := t;
    }

    /** `Server`: no connection while none is tracked; otherwise one of the tracked
        connections (the first in the dictionary's unspecified order). */
    method Server() returns (r: Option<NetworkConnection>)
      requires Valid()
      ensures r.None? <==> net.tracker.connections == map[]
      ensures r.Some? ==> r.value.id in net.tracker.connections && net.tracker.connections[r.value.id] == r.value
    {
      var connections := net.tracker.connections;
      if connections == map[] {
        return None;
      }
      if forall k :: k !in connections {
        assert false;  // a non-empty map has a key
      }
      var id :| id in connections;
      r := Some(connections[id]);
    }

    /** `StopConnection`: stops the transport, unregisters its events (as written) and
        ends Stopped. */
    method StopConnection()
      modifies net`status, net`listeners, net`effects
      ensures net.status == Stopped
      ensures net.effects == old(net.effects) + [StopTransport(transport)]
      ensures net.listeners == old(net.listeners)[transport := UnsubscribeAsWritten(ListenersOf(old(net.listeners), transport))]
    {
      net.effects := net.effects + [StopTransport(transport)];
      net.UnregisterTransportEvents(transport);
      net.status := Stopped;
    }

    /** `StartConnection`, up to its wait: refused unless stopped; otherwise the client
        is Starting while its transport, with the network's handlers registered, is
        asked to start. */
    method StartConnection() returns (r: Option<Outcome>)
      requires Valid()
      modifies net`status, net`listeners, net`effects, this`pendingStarts
      ensures Valid()
      ensures old(net.status) != Stopped ==>
                r == Some(ValidateIsStopped(old(net.status))) && net.status == old(net.status) &&
                net.effects == old(net.effects) && net.listeners == old(net.listeners) &&
                pendingStarts == old(pendingStarts)
      ensures old(net.status) == Stopped ==>
                r == None && net.status == Starting && pendingStarts == old(pendingStarts) + 1 &&
                net.listeners == old(net.listeners)[transport := Subscribe(ListenersOf(old(net.listeners), transport))] &&
                net.effects == old(net.effects) + [StartTransport(transport)]
    {
      var v := ValidateIsStopped(net.status);
      if v.Fail? {
        return Some(v);
      }
      net.status := Starting;
      net.RegisterTransportEvents(transport);
      net.effects := net.effects + [StartTransport(transport)];
      pendingStarts := pendingStarts + 1;
      r := None;
    }

    /** The rest of `StartConnection` once the transport's start finishes. A failure
        stops the client and is swallowed; either way the client then ends Started and
        the start completes normally. */
    method OnTransportStartCompleted(succeeded: bool) returns (r: Outcome)
      requires Valid() && pendingStarts > 0
      modifies net`status, net`listeners, net`effects, this`pendingStarts
      ensures Valid() && pendingStarts == old(pendingStarts) - 1
      ensures r == Ok && net.status == Started
      ensures succeeded ==> net.effects == old(net.effects) && net.listeners == old(net.listeners)
      ensures !succeeded ==>
                net.effects == old(net.effects) + [StopTransport(transport)] &&
                net.listeners == old(net.listeners)[transport := UnsubscribeAsWritten(ListenersOf(old(net.listeners), transport))]
    {
      if !succeeded {
        StopConnection();
      }
      net.status := Started;
      pendingStarts := pendingStarts - 1;
      r := Ok;
    }

    /** `Tick`: the network's tick (stop if Started and the transport is not, then push
        events), and only then the transport's own tick. */
    method Tick(transportStatus: LocalConnectionStatus) returns (ghost order: seq<int32>)
      requires Valid()
      modifies net`status, net`listeners, net`effects, net`previousStatus, net`eventQueue
      ensures Valid()
      ensures var stops := old(net.status) == Started && transportStatus != Started;
              net.status == (if stops then Stopped else old(net.status)) &&
              net.effects == old(net.effects) + (if stops then [StopTransport(transport)] else []) +
                             PushEffects(old(net.previousStatus), net.status, old(net.eventQueue), net.packetHandlers, order) +
                             [TickTransport(transport)] &&
              (NotifiesHandlers(old(net.previousStatus), net.status) ==> IsEnumeration(order, net.packetHandlers.Keys)) &&
              net.listeners == (if stops then old(net.listeners)[transport := UnsubscribeAsWritten(ListenersOf(old(net.listeners), transport))]
                                else old(net.listeners))
      ensures net.previousStatus == (if NotifiesHandlers(old(net.previousStatus), net.status) then net.status else old(net.previousStatus))
      ensures net.eventQueue == (if Drains(old(net.previousStatus), net.status) then [] else old(net.eventQueue))
    {
      if net.status == Started && transportStatus != Started {
        StopConnection();
      }
      order := net.PushEvents();
      net.effects := net.effects + [TickTransport(transport)];
    }
  }
}
