/** The orchestrator shared by server and client (Network.cs): the packet
    handler registry, outbound framing into one shared buffer, inbound dispatch,
    the connection-event queue flushed inside `Tick`, and the local
    `Stopped/Starting/Started` state. Transports are opaque identities; what the
    network does to them, to its handlers and to its listeners is recorded, in
    order, in the ghost log `effects`. */
module Networking {
  import opened NetTypes
  import opened Wire
  import opened Connections

  /** A registered `IPacketHandler`; `name` stands for the handler object's identity. */
  datatype PacketHandler = PacketHandler(name: nat, handlerId: int32)

  /** One queued connection notification (`ConnectionStatusEventArgs`). */
  datatype ConnectionStatusEvent = ConnectionStatusEvent(connection: NetworkConnection, status: RemoteConnectionStatus)

  /** A call the network makes outside its own fields. */
  datatype Effect =
    | NetworkStarted(handler: PacketHandler)     // handler.OnNetworkStarted
    | NetworkStopped(handler: PacketHandler)     // handler.OnNetworkStopped
    | Received(handler: PacketHandler, connection: NetworkConnection, payload: seq<byte>, sendType: SendType)
    | ConnectionStarted(connection: NetworkConnection)
    | ConnectionStopped(connection: NetworkConnection)
    | ConnectionStatusChanged(connection: NetworkConnection, status: RemoteConnectionStatus)
    | SendData(transport: TransportId, connectionId: int, data: seq<byte>, sendType: SendType)
    | StartTransport(transport: TransportId)
    | StopTransport(transport: TransportId)
    | TickTransport(transport: TransportId)
    | SetNetwork(transport: TransportId, attached: bool)

  /** A handler notification: network started or stopped. */
  predicate IsNotice(e: Effect)
  {
    e.NetworkStarted? || e.NetworkStopped?
  }

  /** One of the three network events raised for a queued connection event. */
  predicate IsDelivery(e: Effect)
  {
    e.ConnectionStarted? || e.ConnectionStopped? || e.ConnectionStatusChanged?
  }

  // ---------------------------------------------------------------- guards

  /** `ValidateIsReadyToSend`: only a started network may send. */
  function ValidateIsReadyToSend(status: LocalConnectionStatus): (r: Outcome)
    ensures r == Ok <==> status == Started
    ensures r != Ok ==> r == Fail(NotReadyToSend)
  {
    if status == Started then Ok else Fail(NotReadyToSend)
  }

  /** `ValidateIsStopped`: starting again is refused while starting or started, each
      with its own error. */
  function ValidateIsStopped(status: LocalConnectionStatus): (r: Outcome)
    ensures r == Ok <==> status == Stopped
    ensures status == Starting ==> r == Fail(AlreadyStarting)
    ensures status == Started ==> r == Fail(AlreadyStarted)
  {
    match status
    case Starting => Fail(AlreadyStarting)
    case Started => Fail(AlreadyStarted)
    case Stopped => Ok
  }

  // ---------------------------------------------------------------- framing

  /** The bytes handed to the transport for one packet: the handler id as a four-byte
      int, then the handler's payload. */
  function Frame(handlerId: int32, payload: seq<byte>): (f: seq<byte>)
    ensures |f| == 4 + |payload| && f[4..] == payload
  {
    EncodeInt32(handlerId) + payload
  }

  /** A frame read back yields the handler id it was written with, and the reader is
      left exactly at the payload. */
  lemma FrameRoundTrip(handlerId: int32, payload: seq<byte>)
    ensures DecodeInt32(Frame(handlerId, payload)) == Some(handlerId)
    ensures Frame(handlerId, payload)[4..] == payload
  {
    DecodeEncodeInt32(handlerId, payload);
  }

  /** Distinct (handler id, payload) pairs give distinct frames. */
  lemma FrameInjective(a: int32, p: seq<byte>, b: int32, q: seq<byte>)
    requires Frame(a, p) == Frame(b, q)
    ensures a == b && p == q
  {
    FrameRoundTrip(a, p);
    FrameRoundTrip(b, q);
  }

  // ---------------------------------------------------------------- event delivery

  /** The network events raised for one queued connection event: the started or
      stopped event, then the status event. */
  function EventEffects(e: ConnectionStatusEvent): seq<Effect>
  {
    [if e.status == RemoteStarted then ConnectionStarted(e.connection) else ConnectionStopped(e.connection),
     ConnectionStatusChanged(e.connection, e.status)]
  }

  /** Draining a queue: every event's effects, front of the queue first. */
  function Deliveries(q: seq<ConnectionStatusEvent>): seq<Effect>
  {
    if q == [] then [] else EventEffects(q[0]) + Deliveries(q[1..])
  }

  /** Draining is FIFO: event `i` yields effects `2i` (started/stopped) and `2i+1`
      (status), and nothing else is raised. */
  lemma {:induction false} DeliveriesInOrder(q: seq<ConnectionStatusEvent>)
    ensures |Deliveries(q)| == 2 * |q|
    ensures forall i :: 0 <= i < |q| ==>
              Deliveries(q)[2 * i] == (if q[i].status == RemoteStarted then ConnectionStarted(q[i].connection)
                                       else ConnectionStopped(q[i].connection)) &&
              Deliveries(q)[2 * i + 1] == ConnectionStatusChanged(q[i].connection, q[i].status)
    ensures forall k :: 0 <= k < |Deliveries(q)| ==> IsDelivery(Deliveries(q)[k])
  {
    if q != [] {
      DeliveriesInOrder(q[1..]);
      var d := Deliveries(q);
      assert d == EventEffects(q[0]) + Deliveries(q[1..]);
      forall i | 1 <= i < |q|
        ensures d[2 * i] == (if q[i].status == RemoteStarted then ConnectionStarted(q[i].connection)
                             else ConnectionStopped(q[i].connection))
        ensures d[2 * i + 1] == ConnectionStatusChanged(q[i].connection, q[i].status)
      {
        assert q[1..][i - 1] == q[i];
        assert d[2 * i] == Deliveries(q[1..])[2 * (i - 1)];
        assert d[2 * i + 1] == Deliveries(q[1..])[2 * (i - 1) + 1];
      }
      forall k | 2 <= k < |d| ensures IsDelivery(d[k]) {
        assert d[k] == Deliveries(q[1..])[k - 2];
      }
    }
  }

  /** Draining raises two effects per event, all of them deliveries. */
  lemma OnlyDeliveries(q: seq<ConnectionStatusEvent>)
    ensures |Deliveries(q)| == 2 * |q|
    ensures forall k :: 0 <= k < |Deliveries(q)| ==> IsDelivery(Deliveries(q)[k])
  {
    DeliveriesInOrder(q);
  }

  lemma {:induction false} DeliveriesAppend(q: seq<ConnectionStatusEvent>, e: ConnectionStatusEvent)
    ensures Deliveries(q + [e]) == Deliveries(q) + EventEffects(e)
  {
    if q != [] {
      assert (q + [e])[1..] == q[1..] + [e];
      DeliveriesAppend(q[1..], e);
    } else {
      assert ([] + [e])[1..] == [];
    }
  }

  // ---------------------------------------------------------------- handler notices

  function Notice(started: bool, h: PacketHandler): Effect
  {
    if started then NetworkStarted(h) else NetworkStopped(h)
  }

  /** Notifying the handlers found under `order`, in that order. */
  function Notices(started: bool, order: seq<int32>, handlers: map<int32, PacketHandler>): seq<Effect>
  {
    if order == [] then []
    else (if order[0] in handlers then [Notice(started, handlers[order[0]])] else []) + Notices(started, order[1..], handlers)
  }

  /** `order` lists every key exactly once: a dictionary enumeration, whose order the
      source leaves unspecified. */
  ghost predicate IsEnumeration(order: seq<int32>, keys: set<int32>)
  {
    (forall i, j :: 0 <= i < j < |order| ==> order[i] != order[j]) &&
    (forall x :: x in order <==> x in keys)
  }

  lemma {:induction false} NoticesAppend(started: bool, order: seq<int32>, id: int32, handlers: map<int32, PacketHandler>)
    ensures Notices(started, order + [id], handlers) ==
            Notices(started, order, handlers) + (if id in handlers then [Notice(started, handlers[id])] else [])
  {
    if order != [] {
      assert (order + [id])[1..] == order[1..] + [id];
      NoticesAppend(started, order[1..], id, handlers);
    } else {
      assert ([] + [id])[1..] == [];
    }
  }

  /** Enumerating the registry notifies every registered handler exactly once: one
      notice per key, in enumeration order, all of the same kind. */
  lemma {:induction false} NoticesOfEnumeration(started: bool, order: seq<int32>, handlers: map<int32, PacketHandler>)
    requires forall k :: 0 <= k < |order| ==> order[k] in handlers
    ensures |Notices(started, order, handlers)| == |order|
    ensures forall k :: 0 <= k < |order| ==> Notices(started, order, handlers)[k] == Notice(started, handlers[order[k]])
    ensures IsEnumeration(order, handlers.Keys) ==>
              forall id :: id in handlers ==> Notice(started, handlers[id]) in Notices(started, order, handlers)
  {
    if order != [] {
      NoticesOfEnumeration(started, order[1..], handlers);
      var n := Notices(started, order, handlers);
      assert n == [Notice(started, handlers[order[0]])] + Notices(started, order[1..], handlers);
      forall k | 1 <= k < |order| ensures n[k] == Notice(started, handlers[order[k]]) {
        assert order[1..][k - 1] == order[k];
      }
    }
    if IsEnumeration(order, handlers.Keys) {
      forall id | id in handlers ensures Notice(started, handlers[id]) in Notices(started, order, handlers) {
        assert id in order;
        var k :| 0 <= k < |order| && order[k] == id;
        assert Notices(started, order, handlers)[k] == Notice(started, handlers[id]);
      }
    }
  }

  // ---------------------------------------------------------------- PushEvents

  /** `PushEvents` notifies the handlers on the Stopped→Started and Started→Stopped edges. */
  predicate NotifiesHandlers(previous: LocalConnectionStatus, status: LocalConnectionStatus)
  {
    (previous == Stopped && status == Started) || (previous == Started && status == Stopped)
  }

  /** `PushEvents` drains the queue while started and on the Started→Stopped edge. */
  predicate Drains(previous: LocalConnectionStatus, status: LocalConnectionStatus)
  {
    status == Started || (previous == Started && status == Stopped)
  }

  /** Everything one `PushEvents` raises, given the status it last saw, the current
      status, the queue, the registry and the registry's enumeration order. */
  function PushEffects(previous: LocalConnectionStatus, status: LocalConnectionStatus, q: seq<ConnectionStatusEvent>,
                       handlers: map<int32, PacketHandler>, order: seq<int32>): seq<Effect>
  {
    if previous == Stopped && status == Started then Notices(true, order, handlers) + Deliveries(q)
    else if status == Started then Deliveries(q)
    else if previous == Started && status == Stopped then Deliveries(q) + Notices(false, order, handlers)
    else []
  }

  /** Indexing into a concatenation. */
  lemma Split<T>(a: seq<T>, b: seq<T>)
    ensures (a + b)[..|a|] == a && (a + b)[|a|..] == b
    ensures forall k :: 0 <= k < |a| ==> (a + b)[k] == a[k]
    ensures forall k :: |a| <= k < |a| + |b| ==> (a + b)[k] == b[k - |a|]
  {
  }

  /** On the Stopped→Started edge every handler hears `OnNetworkStarted` before any
      queued event is delivered, and then the whole queue is delivered in FIFO order. */
  lemma StartEdgeNoticesFirst(q: seq<ConnectionStatusEvent>, handlers: map<int32, PacketHandler>, order: seq<int32>)
    requires IsEnumeration(order, handlers.Keys)
    ensures var fx := PushEffects(Stopped, Started, q, handlers, order);
            |order| <= |fx| &&
            (forall id :: id in handlers ==> NetworkStarted(handlers[id]) in fx[..|order|]) &&
            (forall k :: 0 <= k < |order| ==> fx[k].NetworkStarted?) &&
            fx[|order|..] == Deliveries(q) &&
            (forall k :: |order| <= k < |fx| ==> IsDelivery(fx[k]))
  {
    forall k | 0 <= k < |order| ensures order[k] in handlers {
      assert order[k] in order;
    }
    NoticesOfEnumeration(true, order, handlers);
    OnlyDeliveries(q);
    var n := Notices(true, order, handlers);
    var d := Deliveries(q);
    assert PushEffects(Stopped, Started, q, handlers, order) == n + d;
    Split(n, d);
    forall k | 0 <= k < |n| ensures n[k].NetworkStarted? {
      assert n[k] == Notice(true, handlers[order[k]]);
    }
  }

  /** On the Started→Stopped edge the queue is drained completely, in FIFO order,
      before every handler hears `OnNetworkStopped`. */
  lemma StopEdgeDrainsFirst(q: seq<ConnectionStatusEvent>, handlers: map<int32, PacketHandler>, order: seq<int32>)
    requires IsEnumeration(order, handlers.Keys)
    ensures var fx := PushEffects(Started, Stopped, q, handlers, order);
            2 * |q| <= |fx| &&
            fx[..2 * |q|] == Deliveries(q) &&
            (forall id :: id in handlers ==> NetworkStopped(handlers[id]) in fx[2 * |q|..]) &&
            (forall k :: 0 <= k < 2 * |q| ==> IsDelivery(fx[k])) &&
            (forall k :: 2 * |q| <= k < |fx| ==> fx[k].NetworkStopped?)
  {
    forall k | 0 <= k < |order| ensures order[k] in handlers {
      assert order[k] in order;
    }
    NoticesOfEnumeration(false, order, handlers);
    OnlyDeliveries(q);
    var n := Notices(false, order, handlers);
    var d := Deliveries(q);
    assert PushEffects(Started, Stopped, q, handlers, order) == d + n;
    Split(d, n);
    forall k | 0 <= k < |n| ensures n[k].NetworkStopped? {
      assert n[k] == Notice(false, handlers[order[k]]);
    }
  }

  /** Stopping and starting again between two ticks is invisible to the handlers: the
      next `PushEvents` sees Started→Started (or Started→Starting) and raises no
      `OnNetworkStopped` and no `OnNetworkStarted`. */
  lemma RestartBetweenTicksIsSilent(status: LocalConnectionStatus, q: seq<ConnectionStatusEvent>,
                                    handlers: map<int32, PacketHandler>, order: seq<int32>)
    requires status != Stopped
    ensures forall k :: 0 <= k < |PushEffects(Started, status, q, handlers, order)| ==>
              !IsNotice(PushEffects(Started, status, q, handlers, order)[k])
  {
    DeliveriesInOrder(q);
  }

  // ---------------------------------------------------------------- transport listeners

  /** How many times the network's status handler and data handler are attached to one
      transport's `ConnectionStatus` and `ReceivedData` events. */
  datatype Listeners = Listeners(status: nat, data: nat)

  function ListenersOf(m: map<TransportId, Listeners>, t: TransportId): Listeners
  {
    if t in m then m[t] else Listeners(0, 0)
  }

  /** `RegisterTransportEvents`: both handlers attached once more. */
  function Subscribe(l: Listeners): Listeners
  {
    Listeners(l.status + 1, l.data + 1)
  }

  /** `UnregisterTransportEvents` as written: the status handler is attached once more
      (`+=`), the data handler detached once if attached. */
  function UnsubscribeAsWritten(l: Listeners): Listeners
  {
    Listeners(l.status + 1, if l.data > 0 then l.data - 1 else 0)
  }

  /** Applying registrations (`true`) and unregistrations (`false`) in order. */
  function ApplySubscriptions(l: Listeners, ops: seq<bool>): Listeners
    decreases ops
  {
    if ops == [] then l
    else ApplySubscriptions(if ops[0] then Subscribe(l) else UnsubscribeAsWritten(l), ops[1..])
  }

  /** Because unregistering adds the status handler again, every register or unregister
      attaches it once more: once any call has been made, the network keeps hearing
      that transport's connection events for good. The data handler is detached
      again by a matching unregister. */
  lemma {:induction false} StatusListenerIsNeverDetached(l: Listeners, ops: seq<bool>)
    ensures ApplySubscriptions(l, ops).status == l.status + |ops|
    ensures ApplySubscriptions(l, ops).data <= l.data + |ops|
    decreases ops
  {
    if ops != [] {
      StatusListenerIsNeverDetached(if ops[0] then Subscribe(l) else UnsubscribeAsWritten(l), ops[1..]);
    }
  }

  /** One register followed by one unregister leaves the data handler as it was but the
      status handler attached twice more. */
  lemma RegisterThenUnregister(l: Listeners)
    ensures UnsubscribeAsWritten(Subscribe(l)) == Listeners(l.status + 2, l.data)
  {
  }

  // ---------------------------------------------------------------- the network

  class Network {
    var status: LocalConnectionStatus
    var previousStatus: LocalConnectionStatus
    var packetHandlers: map<int32, PacketHandler>
    var eventQueue: seq<ConnectionStatusEvent>
    var listeners: map<TransportId, Listeners>
    const tracker: ConnectionTracker
    const cachedReader: Reader
    const cachedWriter: Writer
    ghost var effects: seq<Effect>

    /** The tracker is consistent, `previousStatus` only ever records an edge
        (Stopped or Started), and each handler is registered under its own id. */
    ghost predicate Valid()
      reads this, tracker, tracker.factory
    {
      tracker.Valid() && previousStatus != Starting &&
      forall id | id in packetHandlers :: packetHandlers[id].handlerId == id
    }

    /** `Awake`: a stopped network with no handlers, connections or queued events. */
    constructor ()
      ensures Valid() && fresh(tracker) && fresh(tracker.factory) && fresh(cachedReader) && fresh(cachedWriter)
      ensures status == Stopped && previousStatus == Stopped
      ensures packetHandlers == map[] && eventQueue == [] && listeners == map[] && effects == []
      ensures tracker.connections == map[] && tracker.connectionLookUp == map[]
    {
      status := Stopped;
      previousStatus := Stopped;
      packetHandlers := map[];
      eventQueue := [];
      listeners := map[];
      tracker := new ConnectionTracker();
      cachedReader := new Reader([]);
      cachedWriter := new Writer();
      effects := [];
    }

    /** `IsReady`: started. */
    function IsReady(): (r: bool)
      reads this
      ensures r <==> ValidateIsReadyToSend(status) == Ok
    {
      status == Started
    }

    /** `RegisterPacketHandler`: a second handler with a registered id is refused and the
        earlier one stays; otherwise the handler is added under its id. */
    method RegisterPacketHandler(h: PacketHandler) returns (r: Outcome)
      requires Valid()
      modifies this`packetHandlers
      ensures Valid()
      ensures h.handlerId in old(packetHandlers) ==> r == Fail(DuplicateKey) && packetHandlers == old(packetHandlers)
      ensures h.handlerId !in old(packetHandlers) ==> r == Ok && packetHandlers == old(packetHandlers)[h.handlerId := h]
    {
      if h.handlerId in packetHandlers {
        return Fail(DuplicateKey);
      }
      packetHandlers := packetHandlers[h.handlerId := h];
      r := Ok;
    }

    /** `UnregisterPacketHandler`: removes whatever is registered under the handler's id;
        nothing happens when the id is absent. */
    method UnregisterPacketHandler(h: PacketHandler)
      requires Valid()
      modifies this`packetHandlers
      ensures Valid()
      ensures packetHandlers == old(packetHandlers) - {h.handlerId}
      ensures h.handlerId !in old(packetHandlers) ==> packetHandlers == old(packetHandlers)
    {
      packetHandlers := packetHandlers - {h.handlerId};
    }

    /** `WritePacketHandlerDataToCachedWriter`: the shared buffer is reset, then holds
        exactly the frame, so nothing from an earlier send survives. */
    method WritePacketHandlerDataToCachedWriter(h: PacketHandler, writer: Writer)
      requires writer != cachedWriter
      modifies cachedWriter
      ensures cachedWriter.data == Frame(h.handlerId, writer.data)
    {
      cachedWriter.Reset();
      cachedWriter.PutInt(h.handlerId);
      cachedWriter.PutBytes(writer.data);
    }

    /** `SendAsPacketHandler`: refused unless started, with nothing sent and the buffer
        untouched; otherwise exactly one `SendData` reaches the connection's transport,
        under its transport-local id, carrying the frame. (`writer` is the caller's,
        never the network's private buffer.) */
    method SendAsPacketHandler(h: PacketHandler, connection: NetworkConnection, writer: Writer, sendType: SendType)
      returns (r: Outcome)
      requires writer != cachedWriter
      modifies cachedWriter, this`effects
      ensures r == ValidateIsReadyToSend(status)
      ensures status != Started ==> effects == old(effects) && cachedWriter.data == old(cachedWriter.data)
      ensures status == Started ==>
                cachedWriter.data == Frame(h.handlerId, writer.data) &&
                effects == old(effects) + [SendData(connection.transport, connection.transportConnectionId,
                                                    Frame(h.handlerId, writer.data), sendType)]
    {
      r := ValidateIsReadyToSend(status);
      if r.Fail? {
        return;
      }
      WritePacketHandlerDataToCachedWriter(h, writer);
      effects := effects + [SendData(connection.transport, connection.transportConnectionId, cachedWriter.data, sendType)];
    }

    /** `RegisterTransportEvents`. */
    method RegisterTransportEvents(t: TransportId)
      modifies this`listeners
      ensures listeners == old(listeners)[t := Subscribe(ListenersOf(old(listeners), t))]
    {
      listeners := listeners[t := Subscribe(ListenersOf(listeners, t))];
    }

    /** `UnregisterTransportEvents`, as written (see `UnsubscribeAsWritten`). */
    method UnregisterTransportEvents(t: TransportId)
      modifies this`listeners
      ensures listeners == old(listeners)[t := UnsubscribeAsWritten(ListenersOf(old(listeners), t))]
      ensures ListenersOf(listeners, t).status > 0
    {
      listeners := listeners[t := UnsubscribeAsWritten(ListenersOf(listeners, t))];
    }

    /** `ProcessEventQueue`: dequeues until empty, raising each event's effects. */
    method ProcessEventQueue()
      modifies this`eventQueue, this`effects
      ensures eventQueue == [] && effects == old(effects) + Deliveries(old(eventQueue))
    {
      while eventQueue != []
        invariant old(effects) + Deliveries(old(eventQueue)) == effects + Deliveries(eventQueue)
        decreases |eventQueue|
      {
        var e := eventQueue[0];
        eventQueue := eventQueue[1..];
        effects := effects + EventEffects(e);
      }
    }

    /** The `foreach` over `packetHandlers.Values`, in the dictionary's (unspecified)
        order, returned as `order`. */
    method NotifyHandlers(started: bool) returns (ghost order: seq<int32>)
      modifies this`effects
      ensures IsEnumeration(order, packetHandlers.Keys)
      ensures effects == old(effects) + Notices(started, order, packetHandlers)
    {
      order := [];
      var remaining := packetHandlers.Keys;
      while remaining != {}
        invariant remaining <= packetHandlers.Keys
        invariant forall x :: x in order <==> x in packetHandlers && x !in remaining
        invariant forall i, j :: 0 <= i < j < |order| ==> order[i] != order[j]
        invariant effects == old(effects) + Notices(started, order, packetHandlers)
        decreases |remaining|
      {
        var id :| id in remaining;
        NoticesAppend(started, order, id, packetHandlers);
        effects := effects + [Notice(started, packetHandlers[id])];
        order := order + [id];
        remaining := remaining - {id};
      }
    }

    /** `PushEvents`: raises `PushEffects` (see the edge lemmas), records an edge in
        `previousStatus`, and empties the queue exactly when it drains it; while
        starting, or stopped without having started, the queue is kept. */
    method PushEvents() returns (ghost order: seq<int32>)
      requires Valid()
      modifies this`previousStatus, this`eventQueue, this`effects
      ensures Valid()
      ensures NotifiesHandlers(old(previousStatus), status) ==> IsEnumeration(order, packetHandlers.Keys)
      ensures effects == old(effects) + PushEffects(old(previousStatus), status, old(eventQueue), packetHandlers, order)
      ensures previousStatus == (if NotifiesHandlers(old(previousStatus), status) then status else old(previousStatus))
      ensures eventQueue == (if Drains(old(previousStatus), status) then [] else old(eventQueue))
    {
      order := [];
      if previousStatus == Stopped && status == Started {
        previousStatus := status;
        order := NotifyHandlers(true);
        ghost var n := effects[|old(effects)|..];
        assert effects == old(effects) + n;
        ProcessEventQueue();
        assert effects == old(effects) + (n + Deliveries(old(eventQueue)));
      } else if status == Started {
        ProcessEventQueue();
      } else if previousStatus == Started && status == Stopped {
        previousStatus := status;
        ProcessEventQueue();
        ghost var d := effects[|old(effects)|..];
        assert effects == old(effects) + d;
        order := NotifyHandlers(false);
        assert effects == old(effects) + (d + Notices(false, order, packetHandlers));
      }
    }

    /** `Transport_OnConnectionStatus`: Started adds the (transport, id) connection and
        Stopped removes it; the matching notification is only queued, never raised here.
        A Started for a pair already tracked fails and queues nothing; a Stopped for an
        untracked pair changes nothing. */
    method TransportOnConnectionStatus(t: TransportId, connectionId: int, s: RemoteConnectionStatus) returns (r: Outcome)
      requires Valid()
      modifies this`eventQueue, tracker, tracker.factory
      ensures Valid()
      ensures s == RemoteStarted && old(tracker.GetNetworkConnection(t, connectionId)).Some? ==>
                r == Fail(DuplicateKey) && eventQueue == old(eventQueue) &&
                tracker.connections == old(tracker.connections) &&
                tracker.connectionLookUp == old(tracker.connectionLookUp) &&
                tracker.factory.nextConnectionId == old(tracker.factory.nextConnectionId)
      ensures s == RemoteStarted && old(tracker.GetNetworkConnection(t, connectionId)).None? ==>
                r == Ok && tracker.GetNetworkConnection(t, connectionId).Some? &&
                tracker.GetNetworkConnection(t, connectionId).value.id !in old(tracker.connections) &&
                eventQueue == old(eventQueue) + [ConnectionStatusEvent(tracker.GetNetworkConnection(t, connectionId).value, RemoteStarted)]
      ensures s == RemoteStopped ==>
                r == Ok && tracker.GetNetworkConnection(t, connectionId) == None &&
                eventQueue == old(eventQueue) +
                  (if old(tracker.GetNetworkConnection(t, connectionId)).Some?
                   then [ConnectionStatusEvent(old(tracker.GetNetworkConnection(t, connectionId)).value, RemoteStopped)]
                   else [])
      ensures forall t': TransportId, k: int {:trigger tracker.GetNetworkConnection(t', k)} ::
                (t', k) != (t, connectionId) ==> tracker.GetNetworkConnection(t', k) == old(tracker.GetNetworkConnection(t', k))
    {
      match s
      case RemoteStarted =>
        var added := tracker.AddNetworkConnection(t, connectionId);
        if added.Failure? {
          return Fail(added.error);
        }
        eventQueue := eventQueue + [ConnectionStatusEvent(added.value, RemoteStarted)];
        r := Ok;
      case RemoteStopped =>
        var removed := tracker.RemoveNetworkConnection(t, connectionId);
        if removed.Some? {
          eventQueue := eventQueue + [ConnectionStatusEvent(removed.value, RemoteStopped)];
        }
        r := Ok;
    }

    /** `Transport_OnReceivedData`: data from an untracked (transport, id) is dropped, and
        so is data whose handler id has no registered handler; otherwise exactly that
        handler receives it once, with the reader just past the id and the event's send
        type. Fewer than four bytes cannot be read as an id. */
    method TransportOnReceivedData(t: TransportId, connectionId: int, data: seq<byte>, sendType: SendType) returns (r: Outcome)
      requires Valid()
      modifies cachedReader, this`effects
      ensures var c := tracker.GetNetworkConnection(t, connectionId);
              var id := DecodeInt32(data);
              (c.None? ==> r == Ok && effects == old(effects)) &&
              (c.Some? && id.None? ==> r == Fail(ReadPastEnd) && effects == old(effects)) &&
              (c.Some? && id.Some? && id.value !in packetHandlers ==> r == Ok && effects == old(effects)) &&
              (c.Some? && id.Some? && id.value in packetHandlers ==>
                 r == Ok && cachedReader.source == data && cachedReader.position == 4 &&
                 effects == old(effects) + [Received(packetHandlers[id.value], c.value, data[4..], sendType)])
    {
      var connection := tracker.GetNetworkConnection(t, connectionId);
      if connection.None? {
        return Ok;
      }
      cachedReader.SetSource(data);
      var packetHandlerId := cachedReader.GetInt();
      if packetHandlerId.Failure? {
        return Fail(packetHandlerId.error);
      }
      if packetHandlerId.value !in packetHandlers {
        return Ok;
      }
      effects := effects + [Received(packetHandlers[packetHandlerId.value], connection.value, cachedReader.Remaining(), sendType)];
      r := Ok;
    }
  }
}
