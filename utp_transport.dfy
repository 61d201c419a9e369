/** The connection bookkeeping of the Unity Transport adapter (UtpTransport.cs):
    a two-way table between transport-local ids and driver connections, ids
    drawn from a counter that is never reset, a list of ids waiting to be
    removed, and a queue of connection events raised during `Tick`. The driver
    itself is an oracle: which connections it reports closed, which it accepts
    and which events it pops per connection are parameters. */
module UtpTransports {
  import opened NetTypes

  /** A driver-side connection handle. */
  type DriverConnection = nat

  /** A connection status event this transport raises (`TransportConnectionStatusEventArgs`). */
  datatype TransportEvent = TransportEvent(connectionId: int, status: RemoteConnectionStatus)

  /** One event the driver pops for a connection; `reliable` tells which pipeline it came on. */
  datatype DriverEvent = Connect | Data(bytes: seq<byte>, reliable: bool) | Disconnect

  /** What the transport does outside its own fields, in order. */
  datatype TransportOutput =
    | StatusRaised(e: TransportEvent)                                          // ConnectionStatus event
    | DataRaised(connectionId: int, data: seq<byte>, sendType: SendType)       // DataReceived event
    | DriverDisconnect(connection: DriverConnection)
    | DriverSend(connection: DriverConnection, data: seq<byte>, sendType: SendType)

  function StoppedEvents(ids: seq<int>): (r: seq<TransportEvent>)
    ensures |r| == |ids|
    ensures forall k :: 0 <= k < |ids| ==> r[k] == TransportEvent(ids[k], RemoteStopped)
  {
    if ids == [] then [] else StoppedEvents(ids[..|ids| - 1]) + [TransportEvent(ids[|ids| - 1], RemoteStopped)]
  }

  function Raised(q: seq<TransportEvent>): (r: seq<TransportOutput>)
    ensures |r| == |q|
    ensures forall k :: 0 <= k < |q| ==> r[k] == StatusRaised(q[k])
  {
    if q == [] then [] else Raised(q[..|q| - 1]) + [StatusRaised(q[|q| - 1])]
  }

  /** `OnConnectionStopped` applied to each id of `ids` in turn, starting from the table
      `conns`: the ids that were removed (one Stopped event each), and the table left. */
  function StopAll(ids: seq<int>, conns: map<int, DriverConnection>): (seq<int>, map<int, DriverConnection>)
  {
    if ids == [] then ([], conns)
    else
      var (removed, m) := StopAll(ids[..|ids| - 1], conns);
      var id := ids[|ids| - 1];
      if id in m then (removed + [id], m - {id}) else (removed, m)
  }

  /** Removing a list of ids, duplicates and unknown ids included: exactly the listed
      ids that were tracked are removed, each yields exactly one Stopped event, and the
      rest of the table is untouched. */
  lemma {:induction false} StopAllRemovesEachOnce(ids: seq<int>, conns: map<int, DriverConnection>)
    ensures forall i, j :: 0 <= i < j < |StopAll(ids, conns).0| ==> StopAll(ids, conns).0[i] != StopAll(ids, conns).0[j]
    ensures forall x :: x in StopAll(ids, conns).0 <==> x in ids && x in conns
    ensures forall x :: x in StopAll(ids, conns).1 <==> x in conns && x !in ids
    ensures forall x :: x in StopAll(ids, conns).1 ==> StopAll(ids, conns).1[x] == conns[x]
  {
    if ids != [] {
      StopAllRemovesEachOnce(ids[..|ids| - 1], conns);
      var init := ids[..|ids| - 1];
      assert forall x :: x in ids <==> x in init || x == ids[|ids| - 1];
    }
  }

  /** The ids whose driver connection is no longer created. */
  function ClosedIds(conns: map<int, DriverConnection>, isCreated: DriverConnection -> bool): (r: set<int>)
    ensures forall id :: id in r <==> id in conns && !isCreated(conns[id])
  {
    set id | id in conns && !isCreated(conns[id])
  }

  /** The Started events of `n` connections tracked one after another from id `first`. */
  function StartedEvents(first: int, n: nat): (r: seq<TransportEvent>)
    ensures |r| == n
    ensures forall k :: 0 <= k < n ==> r[k] == TransportEvent(first + k, RemoteStarted)
  {
    if n == 0 then [] else StartedEvents(first, n - 1) + [TransportEvent(first + n - 1, RemoteStarted)]
  }

  /** Each id is distinct and exactly the keys satisfying `keep` are listed. */
  ghost predicate Lists(order: seq<int>, keys: set<int>)
  {
    (forall i, j :: 0 <= i < j < |order| ==> order[i] != order[j]) &&
    (forall x :: x in order <==> x in keys)
  }

  /** The keys of a table, each once, in an unspecified order: what enumerating a
      dictionary yields. */
  method KeysOf(keys: set<int>) returns (order: seq<int>)
    ensures Lists(order, keys)
  {
    order := [];
    var remaining := keys;
    while remaining != {}
      invariant remaining <= keys
      invariant forall i, j :: 0 <= i < j < |order| ==> order[i] != order[j]
      invariant forall x :: x in order <==> x in keys && x !in remaining
      decreases |remaining|
    {
      if forall k :: k !in remaining {
        assert false;  // a non-empty set has a member
      }
      var id :| id in remaining;
      order := order + [id];
      remaining := remaining - {id};
    }
  }

  class UtpTransport {
    var status: LocalConnectionStatus
    var nextConnectionId: int
    var connections: map<int, DriverConnection>
    var inverse: map<DriverConnection, int>
    var connectionIdsToRemove: seq<int>
    var connectionEventQueue: seq<TransportEvent>
    ghost var outputs: seq<TransportOutput>
    /** Every id a Stopped event has been queued for, in order. */
    ghost var stoppedIds: seq<int>

    /** The two directions of the table agree, ids lie below the counter, and an id
        that has had its Stopped event is neither tracked nor queued for another. */
    ghost predicate Valid()
      reads this`nextConnectionId, this`connections, this`inverse, this`stoppedIds
    {
      0 <= nextConnectionId &&
      (forall id | id in connections :: 0 <= id < nextConnectionId) &&
      (forall id | id in connections :: connections[id] in inverse && inverse[connections[id]] == id) &&
      (forall c | c in inverse :: inverse[c] in connections && connections[inverse[c]] == c) &&
      (forall i, j :: 0 <= i < j < |stoppedIds| ==> stoppedIds[i] != stoppedIds[j]) &&
      (forall k :: 0 <= k < |stoppedIds| ==> stoppedIds[k] !in connections && stoppedIds[k] < nextConnectionId)
    }

    constructor ()
      ensures Valid() && status == Stopped && nextConnectionId == 0
      ensures connections == map[] && inverse == map[] && connectionIdsToRemove == [] && connectionEventQueue == []
      ensures outputs == [] && stoppedIds == []
    {
      status := Stopped;
      nextConnectionId := 0;
      connections := map[];
      inverse := map[];
      connectionIdsToRemove := [];
      connectionEventQueue := [];
      outputs := [];
      stoppedIds := [];
    }

    /** `GetConnectionStatus`: Started exactly when the id is tracked. */
    function GetConnectionStatus(connectionId: int): (r: RemoteConnectionStatus)
      reads this
      ensures r == RemoteStarted <==> connectionId in connections
    {
      if connectionId in connections then RemoteStarted else RemoteStopped
    }

    /** `GetMtu`: for unreliable sends the driver's packet size less the unreliable
        pipeline's header; the reliable pipeline reports no limit (`int.MaxValue`). */
    function GetMtu(connectionId: int, sendType: SendType, driverMtu: int, maxHeaderSize: int): (r: int)
      ensures sendType == Reliable ==> r == MaxInt32
      ensures sendType == Unreliable ==> r + maxHeaderSize == driverMtu
    {
      if sendType == Unreliable then driverMtu - maxHeaderSize else MaxInt32
    }

    /** `BeginTrackingConnection`: the driver connection gets the next id, and the
        counter moves on, so an id is never handed out twice. */
    method BeginTrackingConnection(c: DriverConnection) returns (connectionId: int)
      requires Valid() && c !in inverse
      modifies this`connections, this`inverse, this`nextConnectionId
      ensures Valid()
      ensures connectionId == old(nextConnectionId) && nextConnectionId == old(nextConnectionId) + 1
      ensures connectionId !in old(connections) && connectionId !in stoppedIds
      ensures connections == old(connections)[connectionId := c] && inverse == old(inverse)[c := connectionId]
    {
      connectionId := nextConnectionId;
      connections := connections[connectionId := c];
      inverse := inverse[c := connectionId];
      nextConnectionId := nextConnectionId + 1;
    }

    /** `OnConnectionReady`: a Started event is queued only for a tracked connection. */
    method OnConnectionReady(c: DriverConnection)
      requires Valid()
      modifies this`connectionEventQueue
      ensures c in inverse ==> connectionEventQueue == old(connectionEventQueue) + [TransportEvent(inverse[c], RemoteStarted)]
      ensures c !in inverse ==> connectionEventQueue == old(connectionEventQueue)
    {
      if c in inverse {
        connectionEventQueue := connectionEventQueue + [TransportEvent(inverse[c], RemoteStarted)];
      }
    }

    /** `OnConnectionStopped`: a tracked id leaves the table and queues exactly one
        Stopped event; an untracked id changes nothing. */
    method OnConnectionStopped(connectionId: int)
      requires Valid()
      modifies this`connections, this`inverse, this`connectionEventQueue, this`stoppedIds
      ensures Valid()
      ensures connectionId in old(connections) ==>
                connections == old(connections) - {connectionId} && stoppedIds == old(stoppedIds) + [connectionId] &&
                connectionEventQueue == old(connectionEventQueue) + [TransportEvent(connectionId, RemoteStopped)]
      ensures connectionId !in old(connections) ==>
                connections == old(connections) && stoppedIds == old(stoppedIds) &&
                connectionEventQueue == old(connectionEventQueue)
    {
      if connectionId in connections {
        inverse := inverse - {connections[connectionId]};
        connections := connections - {connectionId};
        connectionEventQueue := connectionEventQueue + [TransportEvent(connectionId, RemoteStopped)];
        stoppedIds := stoppedIds + [connectionId];
      }
    }

    /** `RemoveDisconnectedConnections`: every closed connection joins the pending ids
        (in the table's unspecified order, returned as `closed`), every pending id is
        then removed in turn, and the pending list ends empty. */
    method RemoveDisconnectedConnections(isCreated: DriverConnection -> bool) returns (ghost closed: seq<int>)
      requires Valid()
      modifies this`connections, this`inverse, this`connectionEventQueue, this`stoppedIds, this`connectionIdsToRemove
      ensures Valid()
      ensures Lists(closed, ClosedIds(old(connections), isCreated))
      ensures connections == StopAll(old(connectionIdsToRemove) + closed, old(connections)).1
      ensures stoppedIds == old(stoppedIds) + StopAll(old(connectionIdsToRemove) + closed, old(connections)).0
      ensures connectionEventQueue ==
                old(connectionEventQueue) + StoppedEvents(StopAll(old(connectionIdsToRemove) + closed, old(connections)).0)
      ensures connectionIdsToRemove == []
      ensures forall c :: c in inverse ==> c in old(inverse)
    {
      closed := CollectClosed(isCreated);
      ghost var ids := connectionIdsToRemove;
      RemovePending();
      StopAllRemovesEachOnce(ids, old(connections));
      assert connections == StopAll(ids, old(connections)).1;
      forall c | c in inverse
        ensures c in old(inverse)
      {
        var id := inverse[c];
        assert id in connections && connections[id] == c;
        assert id in old(connections) && old(connections)[id] == c;
      }
    }

    /** The second loop of `RemoveDisconnectedConnections`: removes each pending id in
        turn, then empties the pending list. */
    method RemovePending()
      requires Valid()
      modifies this`connections, this`inverse, this`connectionEventQueue, this`stoppedIds, this`connectionIdsToRemove
      ensures Valid()
      ensures connections == StopAll(old(connectionIdsToRemove), old(connections)).1
      ensures stoppedIds == old(stoppedIds) + StopAll(old(connectionIdsToRemove), old(connections)).0
      ensures connectionEventQueue == old(connectionEventQueue) + StoppedEvents(StopAll(old(connectionIdsToRemove), old(connections)).0)
      ensures connectionIdsToRemove == []
    {
      var pending := connectionIdsToRemove;
      ghost var c0, s0, q0 := connections, stoppedIds, connectionEventQueue;
      ghost var removed: seq<int> := [];
      for i := 0 to |pending|
        invariant Valid()
        invariant StopAll(pending[..i], c0) == (removed, connections)
        invariant stoppedIds == s0 + removed
        invariant connectionEventQueue == q0 + StoppedEvents(removed)
      {
        var id := pending[i];
        assert pending[..i + 1][..i] == pending[..i];
        assert StopAll(pending[..i + 1], c0) ==
               if id in connections then (removed + [id], connections - {id}) else (removed, connections);
        if id in connections {
          assert (removed + [id])[..|removed|] == removed;
          assert StoppedEvents(removed + [id]) == StoppedEvents(removed) + [TransportEvent(id, RemoteStopped)];
          removed := removed + [id];
        }
        OnConnectionStopped(id);
      }
      assert pending[..|pending|] == pending;
      connectionIdsToRemove := [];
    }

    /** The first loop of `RemoveDisconnectedConnections`: appends the id of every closed
        connection to the pending list. */
    method CollectClosed(isCreated: DriverConnection -> bool) returns (ghost closed: seq<int>)
      modifies this`connectionIdsToRemove
      ensures Lists(closed, ClosedIds(connections, isCreated))
      ensures connectionIdsToRemove == old(connectionIdsToRemove) + closed
    {
      closed := [];
      var remaining := connections.Keys;
      while remaining != {}
        invariant remaining <= connections.Keys
        invariant forall i, j :: 0 <= i < j < |closed| ==> closed[i] != closed[j]
        invariant forall x :: x in closed <==> x in ClosedIds(connections, isCreated) && x !in remaining
        invariant connectionIdsToRemove == old(connectionIdsToRemove) + closed
        decreases |remaining|
      {
        if forall k :: k !in remaining {
          assert false;  // a non-empty set has a member
        }
        var id :| id in remaining;
        if !isCreated(connections[id]) {
          connectionIdsToRemove := connectionIdsToRemove + [id];
          closed := closed + [id];
        }
        remaining := remaining - {id};
      }
    }

    /** `PushEvents`: raises every queued event, front first, and empties the queue. */
    method PushEvents()
      modifies this`connectionEventQueue, this`outputs
      ensures connectionEventQueue == [] && outputs == old(outputs) + Raised(old(connectionEventQueue))
    {
      ghost var q0 := connectionEventQueue;
      var k := 0;
      while connectionEventQueue != []
        invariant 0 <= k <= |q0| && connectionEventQueue == q0[k..]
        invariant outputs == old(outputs) + Raised(q0[..k])
        decreases |connectionEventQueue|
      {
        var e := connectionEventQueue[0];
        connectionEventQueue := connectionEventQueue[1..];
        assert q0[..k + 1][..k] == q0[..k] && q0[k] == e;
        outputs := outputs + [StatusRaised(e)];
        k := k + 1;
      }
      assert q0[..k] == q0;
    }

    /** `DisconnectConnection`: an unknown id is ignored; a tracked one is disconnected in
        the driver and only scheduled for removal, so it stays tracked until the next
        tick. */
    method DisconnectConnection(connectionId: int)
      modifies this`connectionIdsToRemove, this`outputs
      ensures connectionId !in connections ==>
                connectionIdsToRemove == old(connectionIdsToRemove) && outputs == old(outputs)
      ensures connectionId in connections ==>
                connectionIdsToRemove == old(connectionIdsToRemove) + [connectionId] &&
                outputs == old(outputs) + [DriverDisconnect(connections[connectionId])]
    {
      if connectionId in connections {
        outputs := outputs + [DriverDisconnect(connections[connectionId])];
        connectionIdsToRemove := connectionIdsToRemove + [connectionId];
      }
    }

    /** `SendData`: an untracked id throws before anything is sent, and so does a driver
        refusing to begin the send (`beginSendStatus` non-zero); otherwise the bytes go
        to that connection on the pipeline of the send type. */
    method SendData(connectionId: int, data: seq<byte>, sendType: SendType, beginSendStatus: int) returns (r: Outcome)
      modifies this`outputs
      ensures connectionId !in connections ==> r == Fail(InvalidConnection) && outputs == old(outputs)
      ensures connectionId in connections && beginSendStatus != 0 ==>
                r == Fail(SendFailed(beginSendStatus)) && outputs == old(outputs)
      ensures connectionId in connections && beginSendStatus == 0 ==>
                r == Ok && outputs == old(outputs) + [DriverSend(connections[connectionId], data, sendType)]
    {
      if connectionId !in connections {
        return Fail(InvalidConnection);
      }
      if beginSendStatus != 0 {
        return Fail(SendFailed(beginSendStatus));
      }
      outputs := outputs + [DriverSend(connections[connectionId], data, sendType)];
      r := Ok;
    }

    /** The per-connection `while` of `Tick`: a Connect queues Started, data is raised at
        once with the send type of its pipeline, and a Disconnect schedules removal. */
    method PollConnection(connectionId: int, events: seq<DriverEvent>)
      requires Valid() && connectionId in connections
      modifies this`connectionEventQueue, this`outputs, this`connectionIdsToRemove
      ensures connectionEventQueue == old(connectionEventQueue) + PollQueued(connectionId, events)
      ensures outputs == old(outputs) + PollRaised(connectionId, events)
      ensures connectionIdsToRemove == old(connectionIdsToRemove) + PollRemovals(connectionId, events)
    {
      for i := 0 to |events|
        invariant connectionEventQueue == old(connectionEventQueue) + PollQueued(connectionId, events[..i])
        invariant outputs == old(outputs) + PollRaised(connectionId, events[..i])
        invariant connectionIdsToRemove == old(connectionIdsToRemove) + PollRemovals(connectionId, events[..i])
      {
        PollEvent(connectionId, events, i, old(connectionEventQueue), old(outputs), old(connectionIdsToRemove));
      }
      assert events[..|events|] == events;
    }

    /** The `i`th popped event of the per-connection `while`, onto a queue, outputs and
        pending removals that began as `q0`, `o0` and `p0`. */
    method PollEvent(connectionId: int, events: seq<DriverEvent>, i: nat,
                     ghost q0: seq<TransportEvent>, ghost o0: seq<TransportOutput>, ghost p0: seq<int>)
      requires Valid() && connectionId in connections && i < |events|
      requires connectionEventQueue == q0 + PollQueued(connectionId, events[..i])
      requires outputs == o0 + PollRaised(connectionId, events[..i])
      requires connectionIdsToRemove == p0 + PollRemovals(connectionId, events[..i])
      modifies this`connectionEventQueue, this`outputs, this`connectionIdsToRemove
      ensures connectionEventQueue == q0 + PollQueued(connectionId, events[..i + 1])
      ensures outputs == o0 + PollRaised(connectionId, events[..i + 1])
      ensures connectionIdsToRemove == p0 + PollRemovals(connectionId, events[..i + 1])
    {
      assert events[..i + 1][..i] == events[..i];
      ghost var q, o, p := PollQueued(connectionId, events[..i]), PollRaised(connectionId, events[..i]),
                           PollRemovals(connectionId, events[..i]);
      match events[i]
      case Connect =>
        OnConnectionReady(connections[connectionId]);
        assert connectionEventQueue == q0 + (q + [TransportEvent(connectionId, RemoteStarted)]);
      case Data(bytes, reliable) =>
        outputs := outputs + [DataRaised(connectionId, bytes, PipelineSendType(reliable))];
        assert outputs == o0 + (o + [DataRaised(connectionId, bytes, PipelineSendType(reliable))]);
      case Disconnect =>
        connectionIdsToRemove := connectionIdsToRemove + [connectionId];
        assert connectionIdsToRemove == p0 + (p + [connectionId]);
    }

    /** `StopConnection(handleEvents)`: when not already stopped, every tracked connection
        is disconnected and removed, queueing one Stopped event each, and the queue is
        raised only when `handleEvents`; whatever happened, the table and the pending
        list end empty and the transport ends Stopped. */
    method StopConnection(handleEvents: bool, isCreated: DriverConnection -> bool) returns (ghost order: seq<int>)
      requires Valid()
      modifies this`status, this`connections, this`inverse, this`connectionIdsToRemove,
               this`connectionEventQueue, this`outputs, this`stoppedIds
      ensures Valid() && status == Stopped && connections == map[] && inverse == map[] && connectionIdsToRemove == []
      ensures old(status) == Stopped ==>
                connectionEventQueue == old(connectionEventQueue) && outputs == old(outputs) && stoppedIds == old(stoppedIds)
      ensures old(status) != Stopped ==>
                Lists(order, old(connections).Keys) &&
                |old(stoppedIds)| <= |stoppedIds| && stoppedIds[..|old(stoppedIds)|] == old(stoppedIds) &&
                Lists(stoppedIds[|old(stoppedIds)|..], old(connections).Keys)
      ensures old(status) != Stopped && handleEvents ==>
                connectionEventQueue == [] &&
                outputs == old(outputs) + DisconnectAll(order, old(connections)) +
                           Raised(old(connectionEventQueue) + StoppedEvents(stoppedIds[|old(stoppedIds)|..]))
      ensures old(status) != Stopped && !handleEvents ==>
                connectionEventQueue == old(connectionEventQueue) + StoppedEvents(stoppedIds[|old(stoppedIds)|..]) &&
                outputs == old(outputs) + DisconnectAll(order, old(connections))
    {
      order := [];
      if status != Stopped {
        order := DisconnectAndRemoveAll(isCreated);
        if handleEvents {
          PushEvents();
        }
      }
      connections := map[];
      inverse := map[];
      connectionIdsToRemove := [];
      status := Stopped;
    }

    /** The `try` part of `StopConnection` before its events are pushed: every tracked
        connection is disconnected and removed, each queueing one Stopped event. */
    method DisconnectAndRemoveAll(isCreated: DriverConnection -> bool) returns (ghost order: seq<int>)
      requires Valid()
      modifies this`connections, this`inverse, this`connectionIdsToRemove,
               this`connectionEventQueue, this`outputs, this`stoppedIds
      ensures Valid() && connections == map[]
      ensures Lists(order, old(connections).Keys)
      ensures |old(stoppedIds)| <= |stoppedIds| && stoppedIds[..|old(stoppedIds)|] == old(stoppedIds)
      ensures Lists(stoppedIds[|old(stoppedIds)|..], old(connections).Keys)
      ensures connectionEventQueue == old(connectionEventQueue) + StoppedEvents(stoppedIds[|old(stoppedIds)|..])
      ensures outputs == old(outputs) + DisconnectAll(order, old(connections))
    {
      order := DisconnectAllConnections();
      ghost var pending := connectionIdsToRemove;
      ghost var closed := RemoveDisconnectedConnections(isCreated);
      ghost var ids := pending + closed;
      StopAllRemovesEachOnce(ids, old(connections));
      ghost var removed := StopAll(ids, old(connections)).0;
      assert stoppedIds[|old(stoppedIds)|..] == removed;
      assert forall x :: x in order ==> x in ids;
      assert forall x :: x !in connections;
    }

    /** The first loop of `StopConnection`: disconnects every tracked connection in the
        driver and schedules its id for removal. */
    method DisconnectAllConnections() returns (ghost order: seq<int>)
      modifies this`connectionIdsToRemove, this`outputs
      ensures Lists(order, connections.Keys)
      ensures connectionIdsToRemove == old(connectionIdsToRemove) + order
      ensures outputs == old(outputs) + DisconnectAll(order, connections)
    {
      order := [];
      var remaining := connections.Keys;
      while remaining != {}
        invariant remaining <= connections.Keys
        invariant forall i, j :: 0 <= i < j < |order| ==> order[i] != order[j]
        invariant forall x :: x in order <==> x in connections && x !in remaining
        invariant connectionIdsToRemove == old(connectionIdsToRemove) + order
        invariant outputs == old(outputs) + DisconnectAll(order, connections)
        decreases |remaining|
      {
        if forall k :: k !in remaining {
          assert false;  // a non-empty set has a member
        }
        var id :| id in remaining;
        assert (order + [id])[..|order|] == order;
        assert DisconnectAll(order + [id], connections) == DisconnectAll(order, connections) + [DriverDisconnect(connections[id])];
        outputs := outputs + [DriverDisconnect(connections[id])];
        connectionIdsToRemove := connectionIdsToRemove + [id];
        order := order + [id];
        remaining := remaining - {id};
      }
    }

    /** `Dispose`: stops the transport without raising the queued events. */
    method Dispose(isCreated: DriverConnection -> bool) returns (ghost order: seq<int>)
      requires Valid()
      modifies this`status, this`connections, this`inverse, this`connectionIdsToRemove,
               this`connectionEventQueue, this`outputs, this`stoppedIds
      ensures Valid() && status == Stopped && connections == map[] && connectionIdsToRemove == []
      ensures outputs == old(outputs) + (if old(status) == Stopped then [] else DisconnectAll(order, old(connections)))
      ensures |old(connectionEventQueue)| <= |connectionEventQueue| &&
              connectionEventQueue[..|old(connectionEventQueue)|] == old(connectionEventQueue)
    {
      order := StopConnection(false, isCreated);
    }

    /** The accept loop of `Tick`: each accepted connection is tracked under the next id
        and at once queues its Started event. */
    method AcceptAll(accepted: seq<DriverConnection>)
      requires Valid()
      requires forall i, j :: 0 <= i < j < |accepted| ==> accepted[i] != accepted[j]
      requires forall k :: 0 <= k < |accepted| ==> accepted[k] !in inverse
      modifies this`connections, this`inverse, this`nextConnectionId, this`connectionEventQueue
      ensures Valid()
      ensures nextConnectionId == old(nextConnectionId) + |accepted|
      ensures forall id :: id in connections <==> id in old(connections) || old(nextConnectionId) <= id < nextConnectionId
      ensures forall id :: id in old(connections) ==> connections[id] == old(connections)[id]
      ensures forall k :: 0 <= k < |accepted| ==> connections[old(nextConnectionId) + k] == accepted[k]
      ensures connectionEventQueue == old(connectionEventQueue) + StartedEvents(old(nextConnectionId), |accepted|)
    {
      for i := 0 to |accepted|
        invariant Valid()
        invariant nextConnectionId == old(nextConnectionId) + i
        invariant forall id :: id in connections <==> id in old(connections) || old(nextConnectionId) <= id < nextConnectionId
        invariant forall id :: id in old(connections) ==> connections[id] == old(connections)[id]
        invariant forall k :: 0 <= k < i ==> connections[old(nextConnectionId) + k] == accepted[k]
        invariant forall k :: i <= k < |accepted| ==> accepted[k] !in inverse
        invariant connectionEventQueue == old(connectionEventQueue) + StartedEvents(old(nextConnectionId), i)
      {
        var id := BeginTrackingConnection(accepted[i]);
        OnConnectionReady(accepted[i]);
      }
    }

    /** The polling loop of `Tick`, over the tracked connections in the table's
        unspecified order (returned as `order`). */
    method PollAll(polled: DriverConnection -> seq<DriverEvent>) returns (ghost order: seq<int>)
      requires Valid() && connectionIdsToRemove == []
      modifies this`connectionEventQueue, this`outputs, this`connectionIdsToRemove
      ensures Lists(order, connections.Keys)
      ensures connectionEventQueue == old(connectionEventQueue) + AllQueued(order, connections, polled)
      ensures outputs == old(outputs) + AllRaised(order, connections, polled)
      ensures connectionIdsToRemove == AllRemovals(order, connections, polled)
      ensures forall x :: x in connectionIdsToRemove <==> x in connections && Disconnect in polled(connections[x])
    {
      var ids := KeysOf(connections.Keys);
      for i := 0 to |ids|
        invariant connectionEventQueue == old(connectionEventQueue) + AllQueued(ids[..i], connections, polled)
        invariant outputs == old(outputs) + AllRaised(ids[..i], connections, polled)
        invariant connectionIdsToRemove == AllRemovals(ids[..i], connections, polled)
      {
        assert ids[..i + 1] == ids[..i] + [ids[i]];
        PollNext(polled, ids[..i], ids[i], old(connectionEventQueue), old(outputs));
      }
      assert ids[..|ids|] == ids;
      AllRemovalsPending(ids, connections, polled);
      order := ids;
    }

    /** One round of the polling loop: connection `id`, polled after those of `order`
        onto a queue and outputs that began as `q0` and `o0`. */
    method PollNext(polled: DriverConnection -> seq<DriverEvent>, ghost order: seq<int>, id: int,
                    ghost q0: seq<TransportEvent>, ghost o0: seq<TransportOutput>)
      requires Valid() && id in connections
      requires connectionEventQueue == q0 + AllQueued(order, connections, polled)
      requires outputs == o0 + AllRaised(order, connections, polled)
      requires connectionIdsToRemove == AllRemovals(order, connections, polled)
      modifies this`connectionEventQueue, this`outputs, this`connectionIdsToRemove
      ensures connectionEventQueue == q0 + AllQueued(order + [id], connections, polled)
      ensures outputs == o0 + AllRaised(order + [id], connections, polled)
      ensures connectionIdsToRemove == AllRemovals(order + [id], connections, polled)
    {
      var events := polled(connections[id]);
      ghost var q, o := AllQueued(order, connections, polled), AllRaised(order, connections, polled);
      PollConnection(id, events);
      assert (order + [id])[..|order|] == order;
      assert AllQueued(order + [id], connections, polled) == q + PollQueued(id, events);
      assert AllRaised(order + [id], connections, polled) == o + PollRaised(id, events);
      assert connectionEventQueue == q0 + (q + PollQueued(id, events));
      assert outputs == o0 + (o + PollRaised(id, events));
    }

    /** `Tick`: nothing unless Started. Otherwise closed and pending connections are
        removed (one Stopped event each), accepted connections are tracked under fresh ids
        and queue Started, every tracked connection is polled (data is raised at once,
        a Connect queues Started, a Disconnect schedules removal for the next tick) and
        finally the queue is raised. Data thus reaches listeners before the Started
        event of a connection accepted in the same tick. */
    method Tick(isCreated: DriverConnection -> bool, accepted: seq<DriverConnection>,
                polled: DriverConnection -> seq<DriverEvent>)
      returns (ghost closed: seq<int>, ghost order: seq<int>, ghost data: seq<TransportOutput>, ghost pushed: seq<TransportEvent>)
      requires Valid()
      requires forall i, j :: 0 <= i < j < |accepted| ==> accepted[i] != accepted[j]
      requires forall k :: 0 <= k < |accepted| ==> accepted[k] !in inverse
      modifies this`connections, this`inverse, this`nextConnectionId, this`connectionEventQueue,
               this`outputs, this`stoppedIds, this`connectionIdsToRemove
      ensures Valid()
      ensures old(status) != Started ==>
                connections == old(connections) && nextConnectionId == old(nextConnectionId) &&
                connectionEventQueue == old(connectionEventQueue) && outputs == old(outputs) &&
                connectionIdsToRemove == old(connectionIdsToRemove)
      ensures old(status) == Started ==>
                Lists(closed, ClosedIds(old(connections), isCreated)) &&
                nextConnectionId == old(nextConnectionId) + |accepted|
      ensures old(status) == Started ==>
                var kept := StopAll(old(connectionIdsToRemove) + closed, old(connections)).1;
                (forall id :: id in connections <==> id in kept || old(nextConnectionId) <= id < nextConnectionId) &&
                (forall id :: id in kept ==> connections[id] == kept[id]) &&
                (forall k :: 0 <= k < |accepted| ==> connections[old(nextConnectionId) + k] == accepted[k])
      ensures old(status) == Started ==>
                Lists(order, connections.Keys) &&
                connectionIdsToRemove == AllRemovals(order, connections, polled) &&
                (forall x :: x in connectionIdsToRemove <==> x in connections && Disconnect in polled(connections[x]))
      ensures old(status) == Started ==>
                pushed == old(connectionEventQueue) +
                          StoppedEvents(StopAll(old(connectionIdsToRemove) + closed, old(connections)).0) +
                          StartedEvents(old(nextConnectionId), |accepted|) +
                          AllQueued(order, connections, polled)
      ensures old(status) == Started ==>
                connectionEventQueue == [] && data == AllRaised(order, connections, polled) &&
                outputs == old(outputs) + data + Raised(pushed)
    {
      closed, order, data, pushed := [], [], [], [];
      if status != Started {
        return;
      }
      closed := RemoveAndAccept(isCreated, accepted);
      order, data, pushed := PollAndPush(polled);
    }

    /** The first half of `Tick`: closed and pending connections are removed, then the
        accepted ones are tracked and queue their Started events. */
    method RemoveAndAccept(isCreated: DriverConnection -> bool, accepted: seq<DriverConnection>) returns (ghost closed: seq<int>)
      requires Valid()
      requires forall i, j :: 0 <= i < j < |accepted| ==> accepted[i] != accepted[j]
      requires forall k :: 0 <= k < |accepted| ==> accepted[k] !in inverse
      modifies this`connections, this`inverse, this`nextConnectionId, this`connectionEventQueue,
               this`stoppedIds, this`connectionIdsToRemove
      ensures Valid() && connectionIdsToRemove == []
      ensures Lists(closed, ClosedIds(old(connections), isCreated))
      ensures nextConnectionId == old(nextConnectionId) + |accepted|
      ensures var kept := StopAll(old(connectionIdsToRemove) + closed, old(connections)).1;
              (forall id :: id in connections <==> id in kept || old(nextConnectionId) <= id < nextConnectionId) &&
              (forall id :: id in kept ==> connections[id] == kept[id]) &&
              (forall k :: 0 <= k < |accepted| ==> connections[old(nextConnectionId) + k] == accepted[k])
      ensures connectionEventQueue == old(connectionEventQueue) +
                                      StoppedEvents(StopAll(old(connectionIdsToRemove) + closed, old(connections)).0) +
                                      StartedEvents(old(nextConnectionId), |accepted|)
    {
      closed := RemoveDisconnectedConnections(isCreated);
      AcceptAll(accepted);
    }

    /** The second half of `Tick`: every tracked connection is polled, then the queue
        is raised. */
    method PollAndPush(polled: DriverConnection -> seq<DriverEvent>)
      returns (ghost order: seq<int>, ghost data: seq<TransportOutput>, ghost pushed: seq<TransportEvent>)
      requires Valid() && connectionIdsToRemove == []
      modifies this`connectionEventQueue, this`outputs, this`connectionIdsToRemove
      ensures Lists(order, connections.Keys)
      ensures connectionIdsToRemove == AllRemovals(order, connections, polled)
      ensures forall x :: x in connectionIdsToRemove <==> x in connections && Disconnect in polled(connections[x])
      ensures data == AllRaised(order, connections, polled)
      ensures pushed == old(connectionEventQueue) + AllQueued(order, connections, polled)
      ensures connectionEventQueue == [] && outputs == old(outputs) + data + Raised(pushed)
    {
      order := PollAll(polled);
      data := AllRaised(order, connections, polled);
      pushed := connectionEventQueue;
      PushEvents();
    }
  }

  /** The send type of the pipeline a data event arrived on. */
  function PipelineSendType(reliable: bool): SendType
  {
    if reliable then Reliable else Unreliable
  }

  /** The Started events queued while draining `events` for connection `id`: one per Connect. */
  function PollQueued(id: int, events: seq<DriverEvent>): (r: seq<TransportEvent>)
    ensures forall k :: 0 <= k < |r| ==> r[k] == TransportEvent(id, RemoteStarted)
  {
    if events == [] then []
    else
      PollQueued(id, events[..|events| - 1]) + (if events[|events| - 1].Connect? then [TransportEvent(id, RemoteStarted)] else [])
  }

  /** The data raised while draining `events` for connection `id`: each payload, in
      order, with the send type of its pipeline. */
  function PollRaised(id: int, events: seq<DriverEvent>): (r: seq<TransportOutput>)
    ensures forall k :: 0 <= k < |r| ==> r[k].DataRaised? && r[k].connectionId == id
  {
    if events == [] then []
    else
      PollRaised(id, events[..|events| - 1]) +
      match events[|events| - 1]
      case Data(bytes, reliable) => [DataRaised(id, bytes, PipelineSendType(reliable))]
      case _ => []
  }

  /** The ids scheduled for removal while draining `events` for connection `id`: one per
      Disconnect. */
  function PollRemovals(id: int, events: seq<DriverEvent>): (r: seq<int>)
    ensures forall k :: 0 <= k < |r| ==> r[k] == id
  {
    if events == [] then []
    else
      PollRemovals(id, events[..|events| - 1]) + (if events[|events| - 1].Disconnect? then [id] else [])
  }

  /** One Started event is queued per Connect popped. */
  lemma {:induction false} PollQueuedCount(id: int, events: seq<DriverEvent>)
    ensures |PollQueued(id, events)| == multiset(events)[Connect]
    decreases |events|
  {
    if events != [] {
      assert events == events[..|events| - 1] + [events[|events| - 1]];
      PollQueuedCount(id, events[..|events| - 1]);
    }
  }

  /** A removal is scheduled exactly when a Disconnect was popped. */
  lemma {:induction false} PollRemovalsWhenDisconnected(id: int, events: seq<DriverEvent>)
    ensures PollRemovals(id, events) != [] <==> Disconnect in events
    decreases |events|
  {
    if events != [] {
      assert forall e :: e in events <==> e in events[..|events| - 1] || e == events[|events| - 1];
      PollRemovalsWhenDisconnected(id, events[..|events| - 1]);
    }
  }

  /** Draining consecutive runs of events raises the data of each run in turn: the
      raised data of a poll is determined event by event. */
  lemma {:induction false} PollRaisedAppend(id: int, a: seq<DriverEvent>, b: seq<DriverEvent>)
    ensures PollRaised(id, a + b) == PollRaised(id, a) + PollRaised(id, b)
    decreases |b|
  {
    if b != [] {
      var init := b[..|b| - 1];
      assert (a + b)[..|a + b| - 1] == a + init;
      assert (a + b)[|a + b| - 1] == b[|b| - 1];
      PollRaisedAppend(id, a, init);
    } else {
      assert a + b == a;
    }
  }

  /** A single data event raises exactly its payload, with its pipeline's send type. */
  lemma PollRaisedOfData(id: int, bytes: seq<byte>, reliable: bool)
    ensures PollRaised(id, [Data(bytes, reliable)]) == [DataRaised(id, bytes, PipelineSendType(reliable))]
  {
    assert [Data(bytes, reliable)][..0] == [];
  }

  /** The Started events queued by polling every connection of `order`, in that order. */
  function AllQueued(order: seq<int>, conns: map<int, DriverConnection>, polled: DriverConnection -> seq<DriverEvent>)
    : (r: seq<TransportEvent>)
    ensures forall k :: 0 <= k < |r| ==> r[k].status == RemoteStarted && r[k].connectionId in conns
  {
    if order == [] then []
    else
      var id := order[|order| - 1];
      AllQueued(order[..|order| - 1], conns, polled) + (if id in conns then PollQueued(id, polled(conns[id])) else [])
  }

  /** The data raised by polling every connection of `order`, in that order. */
  function AllRaised(order: seq<int>, conns: map<int, DriverConnection>, polled: DriverConnection -> seq<DriverEvent>)
    : (r: seq<TransportOutput>)
    ensures forall k :: 0 <= k < |r| ==> r[k].DataRaised? && r[k].connectionId in conns
  {
    if order == [] then []
    else
      var id := order[|order| - 1];
      AllRaised(order[..|order| - 1], conns, polled) + (if id in conns then PollRaised(id, polled(conns[id])) else [])
  }

  /** The ids scheduled for removal by polling every connection of `order`, in that order. */
  function AllRemovals(order: seq<int>, conns: map<int, DriverConnection>, polled: DriverConnection -> seq<DriverEvent>)
    : seq<int>
  {
    if order == [] then []
    else
      var id := order[|order| - 1];
      AllRemovals(order[..|order| - 1], conns, polled) + (if id in conns then PollRemovals(id, polled(conns[id])) else [])
  }

  /** After a poll of connections `order`, an id is pending removal exactly when it was
      polled, is tracked and its driver reported a Disconnect. */
  lemma {:induction false} AllRemovalsPending(order: seq<int>, conns: map<int, DriverConnection>,
                                              polled: DriverConnection -> seq<DriverEvent>)
    ensures forall x :: x in AllRemovals(order, conns, polled) <==> x in order && x in conns && Disconnect in polled(conns[x])
    decreases |order|
  {
    if order != [] {
      var init, id := order[..|order| - 1], order[|order| - 1];
      AllRemovalsPending(init, conns, polled);
      assert forall x :: x in order <==> x in init || x == id;
      if id in conns {
        PollRemovalsWhenDisconnected(id, polled(conns[id]));
        PendingAfterPoll(AllRemovals(init, conns, polled), id, PollRemovals(id, polled(conns[id])));
      }
    }
  }

  /** Appending the removals of one poll adds exactly that connection, and only when it
      scheduled one. */
  lemma PendingAfterPoll(p: seq<int>, id: int, removals: seq<int>)
    requires forall k :: 0 <= k < |removals| ==> removals[k] == id
    ensures forall x :: x in p + removals <==> x in p || (x == id && removals != [])
  {
    if removals != [] {
      assert (p + removals)[|p|] == id;
    }
  }

  /** The driver disconnects for the ids of `order`, in order. */
  function DisconnectAll(order: seq<int>, conns: map<int, DriverConnection>): seq<TransportOutput>
  {
    if order == [] then []
    else DisconnectAll(order[..|order| - 1], conns) +
         (if order[|order| - 1] in conns then [DriverDisconnect(conns[order[|order| - 1]])] else [])
  }
}
