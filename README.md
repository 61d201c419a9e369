# Exanite.Networking — connection lifecycle and packet dispatch, in Dafny

Exanite.Networking is a Unity networking library. A `Network` (server or client)
owns a set of transports. It keeps a registry of packet handlers keyed by a
32-bit handler id. It frames outgoing packets as that id followed by the
payload, and routes incoming packets to the handler named by their first four
bytes. Transports report remote connections by transport-local ids. A
`ConnectionTracker` maps each (transport, transport-local id) pair to a
network-wide `NetworkConnection`, numbered by a `ConnectionFactory`. Connection
events are queued and delivered only inside `Tick`. The network's own
Stopped/Starting/Started state decides when handlers hear "network started" and
"network stopped".

This project models that layer and the pieces around it:

| file | module | source |
|---|---|---|
| `net_types.dfy` | `NetTypes` | shared enumerations, `int32`, `Option`, `Outcome`/`Result`, the exceptions as an `Error` datatype |
| `wire.dfy` | `Wire` | LiteNetLib's `NetDataWriter.Put(int)` / `NetDataReader.GetInt` as a 4-byte little-endian two's-complement code |
| `connections.dfy` | `Connections` | `NetworkConnection.cs`, `ConnectionFactory.cs`, `ConnectionTracker.cs` |
| `network.dfy` | `Networking` | `Network.cs` |
| `network_server.dfy` | `Servers` | `NetworkServer.cs` |
| `network_client.dfy` | `Clients` | `NetworkClient.cs` |
| `utp_transport.dfy` | `UtpTransports` | `Transports/UnityRelay/UtpTransport.cs` |
| `utp_utility.dfy` | `UtpUtility` | `Transports/UnityRelay/UtpUtility.cs` |
| `utp_settings.dfy` | `UtpSettings` | `Transports/UnityRelay/UtpTransportSettings.cs` |
| `channel.dfy` | `Channels` | `Channels/NetworkChannel.cs` |
| `in_memory.dfy` | `InMemory` | `Transports/InMemory/InMemoryTransportServer.cs` |
| `list_codec.dfy` | `ListCodec` | `NetSerializationUtility.Collections.cs`, `NetSerializationExtensions.cs` |
| `lnl_utility.dfy` | `LnlUtility`, `LiteNetLibExtensions` | `Transports/LiteNetLib/LnlUtility.cs`, `Transports/LiteNetLib/LiteNetLibExtensions.cs` |
| `lnl_transport_client.dfy` | `LnlTransportClients` | `Transports/LiteNetLib/LnlTransportClient.cs` |
| `unity_client.dfy` | `UnityClients` | `Client/UnityClient.cs` |
| `unity_server.dfy` | `UnityServers` | `Transports/LiteNetLib/UnityServer.cs` |

How the model is built:

- Objects whose fields the source updates are Dafny classes with those fields.
  This covers the network, server, client, tracker, factory, Unity transport,
  channel, settings and the LiteNetLib components. Pure helpers are functions.
- Transports, handlers, peers and connections the code only passes around are
  opaque references (`TransportId`, `PacketHandler`, `PeerRef`).
- What an object does to the outside world is appended to a ghost log
  (`effects` or `outputs`): events raised, handler callbacks, calls into a
  transport or driver. Ordering properties are stated on that log.
- Every exception becomes an `Error` value returned through `Outcome` or
  `Result`. The state change that happens before a throw is kept.
- Each `async` method is split at its `await`. One method runs the part before
  the wait. Continuation methods model what happens when the awaited work
  finishes, and the environment calls them in any order.
- Enumerating a dictionary picks keys in an unspecified order (`:|`). That order
  is returned as a ghost `order`, and the contracts hold for every order.
- The Unity Transport driver is an oracle, passed in as parameters: which
  connections are still created, which it accepts, which events it pops, and
  the status `BeginSend` returns.

## Where the source files disagree

The files come from different revisions of the library. Each one is modelled as
written.

- `Network.cs:60` stops a started network when `AreTransportsAllStarted()` is
  false. `NetworkServer.cs:74-85` instead overrides `AreAnyTransportsStopped()`.
  The server model follows the override: its `Tick` stops the network when some
  transport reports Stopped. `Servers.AllStartedDiffersFromNoneStopped` shows
  that the two checks differ. With one transport Started and another Starting,
  "all started" is false but no transport is stopped.
  `NetworkClient.cs` overrides neither, so the client model reads the check as
  "the one transport is Started".
- `ConnectionFactory.cs:11` passes three arguments to the four-argument
  constructor at `NetworkConnection.cs:7`. The model leaves out the `Network`
  back-reference that the missing argument would carry.
- `UnregisterTransportEvents` at `Network.cs:120` attaches the status handler
  again with `+=` instead of detaching it. The model counts attachments
  (`Networking.UnsubscribeAsWritten`). `Networking.StatusListenerIsNeverDetached`
  and `Servers.StopKeepsStatusListeners` prove that connection events keep
  reaching a stopped network.
- `NetworkClient.StartConnection` swallows a transport start failure after
  calling `StopConnection`, then sets Started anyway (`NetworkClient.cs:39-44`).
  `Clients.NetworkClient.OnTransportStartCompleted` ends Started either way.
- `NetworkClient.Tick` (`NetworkClient.cs:15-20`) overrides `Network.Tick`,
  which is not virtual. The model takes the client's version: the network's
  stop check and event push come first, then the transport's tick.
- `Transports/InMemory/InMemoryTransport.cs:49-59` declares a settings class
  with `VirtualAddress`. `Transports/InMemory/InMemoryTransportSettings.cs:12`
  declares one with `VirtualPort`, and the server reads `Settings.VirtualPort`
  (`InMemoryTransportServer.cs:12-14`). The model follows the server: the key
  it claims is the virtual port, given to its constructor.
- `InMemoryTransport.cs:10` declares `Status` get-only, yet
  `InMemoryTransportServer.cs:17` assigns it. The model reads `Status` as a
  field the server sets to Started.
- The relay start sequences in `UtpTransportServer.cs` and
  `UtpTransportClient.cs` differ from the ones inside `UtpTransport.cs`. The
  model covers only `UtpTransport.cs`'s bookkeeping.

## Model

| member | source | states |
|---|---|---|
| `Wire.EncodeInt32` | Network.cs:130 | `Put(int)` appends exactly four bytes |
| `Wire.DecodeInt32` | Network.cs:229 | `GetInt` succeeds exactly when at least four bytes remain |
| `Wire.Unsigned32` | Network.cs:229 | the four leading bytes, least significant first, read as a value in [0, 2^32) |
| `Wire.DecodeEncodeInt32` | Network.cs:130 | reading back any written `int` gives the same value, whatever bytes follow it |
| `Wire.EncodeDecodeInt32` | Network.cs:229 | every 4-byte group is the encoding of the value it decodes to, so the code is a bijection |
| `Wire.Writer.constructor` | Network.cs:39 | a new writer is empty |
| `Wire.Writer.Reset` | Network.cs:128 | the buffer becomes empty |
| `Wire.Writer.PutInt` | Network.cs:130 | appends the encoding of the integer and changes nothing else |
| `Wire.Writer.PutBytes` | Network.cs:131 | appends the given bytes unchanged |
| `Wire.Reader.constructor` | Network.cs:38 | a reader starts at position 0 of its source |
| `Wire.Reader.SetSource` | Network.cs:227 | reading restarts at the front of the new data |
| `Wire.Reader.Remaining` | Network.cs:229 | the unread bytes number the source length minus the position |
| `Wire.Reader.GetInt` | Network.cs:229 | success exactly when four bytes remain: the decoded value, position advanced by 4; otherwise a read-past-end error and the position kept |
| `Wire.Reader.Skip` | NetSerializationUtility.Collections.cs:28 | advances the position by the bytes an element read consumed |
| `Connections.Status` | NetworkConnection.cs:22 | the status is whatever the owning transport reports for the transport-local id; nothing is cached |
| `Connections.GetMtu` | NetworkConnection.cs:30-33 | the MTU is the owning transport's answer for the transport-local id and send type |
| `Connections.Disconnect` | NetworkConnection.cs:35-38 | the one request goes to the owning transport and names the transport-local id, not the network-wide id |
| `Connections.AnswersDependOnlyOnTransportPair` | NetworkConnection.cs:22-38 | two connection objects for the same (transport, local id) get the same status, MTU and disconnect request, whatever their network-wide ids |
| `Connections.ConnectionFactory.constructor` | ConnectionFactory.cs:7 | the counter starts at 0, so the first id issued is 0 |
| `Connections.ConnectionFactory.CreateNetworkConnection` | ConnectionFactory.cs:9-12 | the connection gets the counter's old value and exactly the given transport and local id; the counter goes up by exactly one |
| `Connections.CreateMany` | ConnectionFactory.cs:11 | successive creations get ids `next`, `next+1`, …; ids strictly increase and never repeat |
| `Connections.ConnectionTracker.constructor` | ConnectionTracker.cs:8-9 | both dictionaries start empty and the factory's counter at 0 |
| `Connections.ConnectionTracker.GetNetworkConnection` | ConnectionTracker.cs:13-22 | none when the transport has no inner table or the local id is absent from it; when both are present, exactly the connection stored there; with the two maps in step, that connection carries the asked transport and local id and is the one listed under its own id |
| `Connections.ConnectionTracker.AddNetworkConnection` | Network.cs:205 | a pair already tracked is refused and nothing changes; otherwise a fresh connection is listed under its new id and under its pair, both maps stay in step, and every other pair resolves as before |
| `Connections.ConnectionTracker.RemoveNetworkConnection` | Network.cs:211 | returns what the pair resolved to; an untracked pair changes nothing; a tracked one leaves both maps, the pair resolves to none, and every other pair resolves as before |
| `Connections.LookupIsConsistent` | ConnectionTracker.cs:8-9 | when the maps are in step, a resolved connection carries its pair and is listed under its own id |
| `Connections.PairsAreUnique` | ConnectionTracker.cs:9 | when the maps are in step, two tracked connections with the same pair are the same connection |
| `Networking.ValidateIsReadyToSend` | Network.cs:93-99 | passes exactly when Started; otherwise the not-ready error |
| `Networking.ValidateIsStopped` | Network.cs:101-108 | passes exactly when Stopped; Starting gives "already starting", Started gives "already started" |
| `Networking.Frame` | Network.cs:126-132 | the frame is the handler id's four bytes followed by the payload, unchanged |
| `Networking.FrameRoundTrip` | Network.cs:227-229 | reading an int from a frame gives back the handler id, and the rest is the payload |
| `Networking.FrameInjective` | Network.cs:126-132 | different (handler id, payload) pairs never produce the same frame |
| `Networking.DeliveriesInOrder` | Network.cs:136-159 | draining is FIFO: queued event `i` raises Started or Stopped (by its status) at `2i` and the status event at `2i+1`, and nothing else is raised |
| `Networking.DeliveriesAppend` | Network.cs:138-158 | draining one more event appends exactly that event's two notifications |
| `Networking.NoticesAppend` | Network.cs:165-168 | notifying one more key appends that handler's notice, if it is registered |
| `Networking.NoticesOfEnumeration` | Network.cs:165-168 | enumerating the registry notifies every registered handler exactly once, in enumeration order |
| `Networking.StartEdgeNoticesFirst` | Network.cs:161-174 | on the Stopped→Started edge every handler gets `OnNetworkStarted` before any queued event is delivered, and the whole queue follows |
| `Networking.StopEdgeDrainsFirst` | Network.cs:176-186 | on the Started→Stopped edge the whole queue is delivered before any handler gets `OnNetworkStopped`, and then every handler gets it |
| `Networking.RestartBetweenTicksIsSilent` | Network.cs:161-186 | a network last seen Started that is not Stopped now raises no handler notice |
| `Networking.StatusListenerIsNeverDetached` | Network.cs:112-122 | after any sequence of registers and unregisters, the status handler's count grows by exactly one per call; the data handler's count never exceeds its start plus the number of calls |
| `Networking.RegisterThenUnregister` | Network.cs:112-122 | a register then an unregister restores the data handler but leaves the status handler attached twice more |
| `Networking.Network.constructor` | Network.cs:32-45 | a new network is Stopped with no handlers, connections, queued events or listeners |
| `Networking.Network.IsReady` | Network.cs:23 | ready exactly when the send check passes |
| `Networking.Network.RegisterPacketHandler` | Network.cs:73-76 | a handler whose id is taken is refused and the earlier handler stays; otherwise it is registered under its id |
| `Networking.Network.UnregisterPacketHandler` | Network.cs:78-81 | removes by id; a no-op when the id is absent |
| `Networking.Network.WritePacketHandlerDataToCachedWriter` | Network.cs:126-132 | the shared buffer is reset and then holds exactly the frame, so nothing from an earlier send survives |
| `Networking.Network.SendAsPacketHandler` | Network.cs:83-91 | refused unless Started, with nothing sent and the buffer untouched; otherwise exactly one send of the frame to the connection's transport and local id, with the given send type |
| `Networking.Network.RegisterTransportEvents` | Network.cs:112-116 | both handlers attached once more to that transport only |
| `Networking.Network.UnregisterTransportEvents` | Network.cs:118-122 | as written: the status handler attached once more, the data handler detached once |
| `Networking.Network.ProcessEventQueue` | Network.cs:136-159 | empties the queue and raises its events' notifications in FIFO order |
| `Networking.Network.NotifyHandlers` | Network.cs:165-168 | one notice per registered handler, in a dictionary enumeration order |
| `Networking.Network.PushEvents` | Network.cs:134-187 | the effects are exactly the edge-dependent push (notices, deliveries); `previousStatus` records an edge only when one is crossed; the queue is emptied exactly when it is drained |
| `Networking.Network.TransportOnConnectionStatus` | Network.cs:199-217 | Started tracks a new connection and only enqueues its Started event (a tracked pair is refused); Stopped removes a tracked connection and only enqueues its Stopped event; nothing is delivered inline |
| `Networking.Network.TransportOnReceivedData` | Network.cs:219-236 | an unknown connection or handler id drops the data with no handler call; fewer than four bytes fail with a read-past-end error and reach no handler; otherwise exactly that handler receives it once, with the reader just past the id and the event's send type |
| `Servers.PairEffectsInOrder` | NetworkServer.cs:52-58 | a start or stop reaches every transport exactly once, in list order, with its two calls adjacent |
| `Servers.TickEffectsInOrder` | NetworkServer.cs:87-95 | every transport is ticked exactly once, in list order |
| `Servers.StopKeepsStatusListeners` | NetworkServer.cs:57 | after a stop every listed transport still has the status handler attached, and other transports are untouched |
| `Servers.AllStartedDiffersFromNoneStopped` | NetworkServer.cs:74-85 | there are transport states where no transport is stopped yet not all are started |
| `Servers.NetworkServer.constructor` | NetworkServer.cs:17-20 | a new server is Stopped, holds the given transports in order and has no start in the air |
| `Servers.NetworkServer.SetTransports` | NetworkServer.cs:63-72 | refused unless Stopped, with the list kept; otherwise the list is replaced wholesale, in the given order |
| `Servers.NetworkServer.AreAnyTransportsStopped` | NetworkServer.cs:74-85 | true exactly when some transport reports Stopped |
| `Servers.NetworkServer.OnTickTransports` | NetworkServer.cs:87-95 | ticks every transport exactly once, in list order |
| `Servers.NetworkServer.StopConnection` | NetworkServer.cs:50-61 | every transport is stopped, then detached, then unregistered, in list order; the server ends Stopped, also when already stopped |
| `Servers.NetworkServer.StartConnection` | NetworkServer.cs:32-40 | refused unless Stopped; otherwise Starting, each transport registered, attached and asked to start, in list order; the call is recorded as a new start waiting for every transport of the list, and with no transports it completes at once and the server stays Starting |
| `Servers.NetworkServer.AwaitTransports` | NetworkServer.cs:40 | the new start's `WhenAll` waits for every transport of the list, counted with multiplicity, and is complete at once for an empty list; earlier starts keep their own records |
| `Servers.NetworkServer.Fault` | NetworkServer.cs:42-47 | the first fault of a start that has not completed, whichever start it is, stops the server and completes that start with the wrapped error; a fault of a completed start changes nothing |
| `Servers.NetworkServer.Arrive` | NetworkServer.cs:40 | a finished transport start leaves, once, the start that asked for it; every other start is unchanged |
| `Servers.NetworkServer.OnTransportStarted` | NetworkServer.cs:97-112 | a transport finishing after a stop faults its own start with "stopped while starting": when that start has not completed, every transport is stopped and unsubscribed and the start completes with the wrapped error, otherwise nothing changes; without a stop the server is Started at once, without waiting for other transports, and the transport's start completes with success on its last transport |
| `Servers.NetworkServer.MarkStarted` | NetworkServer.cs:109-111 | the server is Started; the transport's start completes, with success, exactly when this was its last unfinished transport and it had not already completed |
| `Servers.NetworkServer.OnTransportStartFailed` | NetworkServer.cs:38-47 | the first failure of a start that has not completed, the latest or an earlier one, stops the server, unsubscribes every transport's events and fails that start wrapped; a failure of a completed start changes neither status, effects nor listeners |
| `Servers.EarlierStartFaultStops` | NetworkServer.cs:38-47 | start, stop, start again, then a transport of the first start fails: the first start's catch still stops the server, which ends Stopped, and fails that start wrapped |
| `Servers.NetworkServer.Tick` | Network.cs:58-67 | stops first if Started and some transport is stopped (unsubscribing every transport; otherwise listeners are kept), then ticks every transport, then pushes events, in that order; the last-notified status and the event queue change exactly as the network's event push changes them |
| `Clients.NetworkClient.constructor` | NetworkClient.cs:10 | a new client is Stopped with its transport set and no start waiting |
| `Clients.NetworkClient.SetTransport` | NetworkClient.cs:22-25 | replaces the transport, with no status check |
| `Clients.NetworkClient.Server` | NetworkClient.cs:13 | none exactly when no connection is tracked; otherwise a tracked connection |
| `Clients.NetworkClient.StopConnection` | NetworkClient.cs:47-54 | stops the transport, unregisters its events as written, ends Stopped |
| `Clients.NetworkClient.StartConnection` | NetworkClient.cs:27-37 | refused unless Stopped; otherwise Starting while the transport, with events registered, is asked to start, and one more start waits for it; a stop and a new start before that wait ends leave two waiting |
| `Clients.NetworkClient.OnTransportStartCompleted` | NetworkClient.cs:39-45 | the continuation of any waiting start: a failure stops the client and is swallowed; either way the client then ends Started, the start completes normally and one start fewer is waiting |
| `Clients.NetworkClient.Tick` | NetworkClient.cs:15-20 | the network's stop check (unsubscribing the transport as written when it stops) and event push first, then the transport's tick; the last-notified status and the event queue change exactly as the network's event push changes them |
| `UtpTransports.StoppedEvents` | Transports/UnityRelay/UtpTransport.cs:347-353 | one Stopped event per id, in order |
| `UtpTransports.Raised` | Transports/UnityRelay/UtpTransport.cs:316-322 | one raised status event per queued event, in order |
| `UtpTransports.StartedEvents` | Transports/UnityRelay/UtpTransport.cs:66-72 | the Started events of connections tracked one after another get consecutive ids |
| `UtpTransports.StopAllRemovesEachOnce` | Transports/UnityRelay/UtpTransport.cs:122-125 | removing a list of ids, with duplicates or unknown ids, removes exactly the listed tracked ids, each yielding exactly one Stopped event, and keeps the rest of the table |
| `UtpTransports.ClosedIds` | Transports/UnityRelay/UtpTransport.cs:114-120 | exactly the tracked ids whose driver connection is no longer created |
| `UtpTransports.UtpTransport.constructor` | Transports/UnityRelay/UtpTransport.cs:21-29 | Stopped, with an empty table, pending list and queue, and the counter at 0 |
| `UtpTransports.UtpTransport.GetConnectionStatus` | Transports/UnityRelay/UtpTransport.cs:237-240 | Started exactly when the id is tracked |
| `UtpTransports.UtpTransport.GetMtu` | Transports/UnityRelay/UtpTransport.cs:242-251 | unreliable: the driver's packet size less the unreliable header; reliable: `int.MaxValue` |
| `UtpTransports.UtpTransport.BeginTrackingConnection` | Transports/UnityRelay/UtpTransport.cs:329-332 | the connection gets `nextConnectionId`, which then goes up by one; the id was never tracked or stopped before |
| `UtpTransports.UtpTransport.OnConnectionReady` | Transports/UnityRelay/UtpTransport.cs:339-345 | a Started event is queued only for a connection in the table |
| `UtpTransports.UtpTransport.OnConnectionStopped` | Transports/UnityRelay/UtpTransport.cs:347-353 | a tracked id leaves the table and queues exactly one Stopped event; an absent id changes nothing |
| `UtpTransports.UtpTransport.RemoveDisconnectedConnections` | Transports/UnityRelay/UtpTransport.cs:112-128 | closed connections join the pending ids, every pending id is processed in order, and the pending list ends empty |
| `UtpTransports.UtpTransport.RemovePending` | Transports/UnityRelay/UtpTransport.cs:122-127 | each pending id removed in turn, then the pending list cleared |
| `UtpTransports.UtpTransport.CollectClosed` | Transports/UnityRelay/UtpTransport.cs:114-120 | the id of every closed connection is appended to the pending list, once each |
| `UtpTransports.UtpTransport.PushEvents` | Transports/UnityRelay/UtpTransport.cs:316-322 | raises every queued event front first and empties the queue |
| `UtpTransports.UtpTransport.DisconnectConnection` | Transports/UnityRelay/UtpTransport.cs:253-260 | an unknown id is a no-op; a known one is disconnected in the driver and only scheduled for removal, so it stays tracked until the next tick |
| `UtpTransports.UtpTransport.SendData` | Transports/UnityRelay/UtpTransport.cs:262-283 | an untracked id throws before anything is sent; a refused `BeginSend` throws with its status; otherwise the bytes go to that connection with the send type |
| `UtpTransports.UtpTransport.PollConnection` | Transports/UnityRelay/UtpTransport.cs:77-106 | draining a connection's events appends exactly its queued Started events, its raised data and its scheduled removals, event by event |
| `UtpTransports.UtpTransport.PollEvent` | Transports/UnityRelay/UtpTransport.cs:79-105 | one popped event: Connect queues Started for the connection, data is raised at once with its pipeline's send type, Disconnect schedules removal |
| `UtpTransports.PollQueued` | Transports/UnityRelay/UtpTransport.cs:81-89 | every queued event is Started for the polled connection |
| `UtpTransports.PollQueuedCount` | Transports/UnityRelay/UtpTransport.cs:81-89 | one Started event per Connect popped |
| `UtpTransports.PollRaised` | Transports/UnityRelay/UtpTransport.cs:90-95 | everything raised is data from the polled connection |
| `UtpTransports.PollRaisedAppend` | Transports/UnityRelay/UtpTransport.cs:77-106 | the data raised by two runs of events is the first run's followed by the second's |
| `UtpTransports.PollRaisedOfData` | Transports/UnityRelay/UtpTransport.cs:355-366 | a data event raises exactly its payload, reliable pipeline to reliable, otherwise unreliable |
| `UtpTransports.PollRemovals` | Transports/UnityRelay/UtpTransport.cs:96-104 | every scheduled removal names the polled connection |
| `UtpTransports.PollRemovalsWhenDisconnected` | Transports/UnityRelay/UtpTransport.cs:96-104 | a removal is scheduled exactly when a Disconnect was popped |
| `UtpTransports.AllQueued` | Transports/UnityRelay/UtpTransport.cs:74-107 | polling all connections queues only Started events of tracked connections |
| `UtpTransports.AllRaised` | Transports/UnityRelay/UtpTransport.cs:74-107 | polling all connections raises only data of tracked connections |
| `UtpTransports.AllRemovalsPending` | Transports/UnityRelay/UtpTransport.cs:74-107 | after polling, an id is pending removal exactly when it was polled, is tracked and popped a Disconnect |
| `UtpTransports.PendingAfterPoll` | Transports/UnityRelay/UtpTransport.cs:96-104 | one connection's removals add that connection to the pending ids, and only when it scheduled one |
| `UtpTransports.KeysOf` | Transports/UnityRelay/UtpTransport.cs:74 | enumerating the connection table yields every tracked id exactly once |
| `UtpTransports.UtpTransport.StopConnection` | Transports/UnityRelay/UtpTransport.cs:201-235 | always ends Stopped with an empty table and pending list; when it was running, every connection is disconnected and yields exactly one Stopped event, and the queue is raised in FIFO order only when `handleEvents` |
| `UtpTransports.UtpTransport.DisconnectAndRemoveAll` | Transports/UnityRelay/UtpTransport.cs:205-213 | every tracked connection is disconnected and removed, each yielding exactly one Stopped event |
| `UtpTransports.UtpTransport.DisconnectAllConnections` | Transports/UnityRelay/UtpTransport.cs:207-211 | every tracked connection is disconnected in the driver and scheduled once for removal |
| `UtpTransports.UtpTransport.Dispose` | Transports/UnityRelay/UtpTransport.cs:49-52 | stops without raising the queued events |
| `UtpTransports.UtpTransport.AcceptAll` | Transports/UnityRelay/UtpTransport.cs:66-72 | each accepted connection is tracked under the next id and queues its Started event at once |
| `UtpTransports.UtpTransport.PollAll` | Transports/UnityRelay/UtpTransport.cs:74-107 | with nothing pending, polls every tracked connection once, in the table's order: the queue, the raised data and the pending ids grow by exactly the per-connection results in that order, and removal is scheduled for exactly the connections that popped a Disconnect |
| `UtpTransports.UtpTransport.PollNext` | Transports/UnityRelay/UtpTransport.cs:77-106 | polling one more connection appends its own queued events, raised data and removals after those of the connections before it |
| `UtpTransports.UtpTransport.RemoveAndAccept` | Transports/UnityRelay/UtpTransport.cs:64-72 | the removals of the tick and then its accepts: the removed ids leave with one Stopped event each, every accepted connection gets a fresh id and one Started event, queued after the Stopped ones |
| `UtpTransports.UtpTransport.PollAndPush` | Transports/UnityRelay/UtpTransport.cs:74-109 | every tracked connection is polled once, its data raised at once, and then the whole queue (what was queued before, then the Started events of this poll, per connection in polling order) is raised in FIFO order and emptied |
| `UtpTransports.UtpTransport.Tick` | Transports/UnityRelay/UtpTransport.cs:54-110 | nothing unless Started; otherwise removals, then accepts with fresh ids, then polling, then the queue raised: the raised events are exactly the earlier queue, the Stopped events, the accepted connections' Started events and the Started events of the poll, in that order, after the polled data |
| `UtpUtility.ToUShort` | Transports/UnityRelay/UtpUtility.cs:25 | the `(ushort)` cast keeps the low sixteen bits |
| `UtpUtility.GetEndpointForConnectionType` | Transports/UnityRelay/UtpUtility.cs:88-99 | the first endpoint in list order with the requested type; none exactly when none matches |
| `UtpUtility.CreateHostRelayData` | Transports/UnityRelay/UtpUtility.cs:15-37 | fails exactly when no endpoint matches; otherwise the first match, the host's own connection data in both slots, secure exactly for "dtls" |
| `UtpUtility.CreatePlayerRelayData` | Transports/UnityRelay/UtpUtility.cs:39-62 | fails exactly when no endpoint matches; otherwise the first match, the player's own connection data then the host's, secure exactly for "dtls" |
| `UtpUtility.CreateHostRelayDataByDefault` | Transports/UnityRelay/UtpUtility.cs:15 | with the default "dtls" type, fails exactly when no endpoint has it, and otherwise the relay connection is secure |
| `UtpUtility.CreatePlayerRelayDataByDefault` | Transports/UnityRelay/UtpUtility.cs:39 | with the default "dtls" type, fails exactly when no endpoint has it, and otherwise the relay connection is secure |
| `UtpSettings.ToUpperChar` | Transports/UnityRelay/UtpTransportSettings.cs:24 | lower-case letters become their upper-case letter; everything else is kept |
| `UtpSettings.ToUpper` | Transports/UnityRelay/UtpTransportSettings.cs:24 | same length, each character upper-cased |
| `UtpSettings.ToUpperIsUpper` | Transports/UnityRelay/UtpTransportSettings.cs:24 | an upper-cased string has no lower-case letter, and a string equals its upper-cased form exactly when it has none |
| `UtpSettings.StoredJoinCode` | Transports/UnityRelay/UtpTransportSettings.cs:24 | null stays null; any other code is stored as its upper-cased form, so with no lower-case letter and its length kept |
| `UtpSettings.StoredJoinCodeIdempotent` | Transports/UnityRelay/UtpTransportSettings.cs:24 | setting the stored code again leaves it unchanged |
| `UtpSettings.UtpTransportSettings.constructor` | Transports/UnityRelay/UtpTransportSettings.cs:11-13 | defaults: two connections, empty join code, automatic sign-in on |
| `UtpSettings.UtpTransportSettings.SetMaxConnections` | Transports/UnityRelay/UtpTransportSettings.cs:17-18 | stores the value unchanged |
| `UtpSettings.UtpTransportSettings.SetJoinCode` | Transports/UnityRelay/UtpTransportSettings.cs:24 | stores the upper-cased code; null stays null |
| `UtpSettings.UtpTransportSettings.SetAutoSignInToUnityServices` | Transports/UnityRelay/UtpTransportSettings.cs:29-30 | stores the value unchanged |
| `Channels.Invocations` | Channels/NetworkChannel.cs:75-78 | one invocation per registration, in registration order, all with the same connection and message |
| `Channels.NetworkChannel.constructor` | Channels/NetworkChannel.cs:9-31 | a new channel has id -1 and is not ready, with no handlers and an empty writer |
| `Channels.NetworkChannel.SetId` | Channels/NetworkChannel.cs:14-15 | ready exactly when the id is not -1 |
| `Channels.NetworkChannel.Write` | Channels/NetworkChannel.cs:55-59 | the writer is reset first, so it holds only the last message written |
| `Channels.NetworkChannel.WriteCurrent` | Channels/NetworkChannel.cs:50-53 | writes the current message |
| `Channels.NetworkChannel.SendNoWrite` | Channels/NetworkChannel.cs:61-64 | raises `DataSent` with the current id, the connection, the writer's bytes and the send type; the writer is untouched |
| `Channels.NetworkChannel.Send` | Channels/NetworkChannel.cs:44-48 | `Write` then `SendNoWrite`: what is sent is exactly the message's bytes |
| `Channels.NetworkChannel.SendCurrent` | Channels/NetworkChannel.cs:39-42 | sends the current message |
| `Channels.NetworkChannel.RegisterHandler` | Channels/NetworkChannel.cs:66-69 | appends the handler, duplicates included |
| `Channels.NetworkChannel.OnDataReceived` | Channels/NetworkChannel.cs:71-79 | deserializes into the message, then invokes every registered handler in registration order with it |
| `InMemory.ServerRegistry.constructor` | Transports/InMemory/InMemoryTransportServer.cs:8 | the registry starts empty |
| `InMemory.InMemoryTransportServer.constructor` | Transports/InMemory/InMemoryTransportServer.cs:6 | a new server is Stopped on its virtual port and shares the given registry |
| `InMemory.InMemoryTransportServer.StartConnection` | Transports/InMemory/InMemoryTransportServer.cs:10-19 | a port in use throws and leaves the registry and status unchanged; a free port maps to this server, which becomes Started |
| `InMemory.TwoServersOnOnePort` | Transports/InMemory/InMemoryTransportServer.cs:8-15 | the registry is shared: a second server on a claimed port fails to start |
| `ListCodec.DecodeElements` | NetSerializationUtility.Collections.cs:26-29 | reading `n` elements yields exactly `n` and never consumes more bytes than there are |
| `ListCodec.DecodeEncodeElements` | NetSerializationUtility.Collections.cs:26-29 | with an element round-trip, reading back written elements reproduces them in order |
| `ListCodec.DecodeEncodeList` | NetSerializationExtensions.cs:53-73 | with an element round-trip, reading back a written list gives its count, then its elements |
| `ListCodec.ManagedList.constructor` | NetSerializationUtility.Collections.cs:18 | a list holds the given items |
| `ListCodec.PutListWithCount` | NetSerializationUtility.Collections.cs:37-50 | a null list throws and nothing is written; otherwise the count, then each element in index order |
| `ListCodec.EncodeElementsSnoc` | NetSerializationExtensions.cs:124-127 | writing one more element appends its encoding |
| `ListCodec.DecodeElementsSnoc` | NetSerializationExtensions.cs:67-70 | reading one more element appends it when it can be read |
| `ListCodec.DecodeElementsSnocFail` | NetSerializationExtensions.cs:67-70 | reading fails as soon as one element cannot be read |
| `ListCodec.DecodeElementsPrefixFails` | NetSerializationUtility.Collections.cs:26-29 | if the first `i` elements cannot be read, neither can more |
| `ListCodec.ReadElements` | NetSerializationUtility.Collections.cs:26-29 | appends exactly the decoded elements, in order, and advances past them |
| `ListCodec.GetListWithCount` | NetSerializationUtility.Collections.cs:12-32 | reads one count, then exactly that many elements in order; an unreadable count fails with the reader where it was; a negative count fails after clearing a supplied list; a supplied list is cleared and is itself the result, otherwise the result is a fresh list |
| `LnlUtility.ToLnlDeliveryMethod` | Transports/LiteNetLib/LnlUtility.cs:7-10 | unreliable exactly for unreliable sends; every other send is reliable-ordered |
| `LnlUtility.ToDeliveryMethod` | Transports/LiteNetLib/LnlUtility.cs:12-15 | unreliable exactly for LiteNetLib's unreliable method; all others, sequenced included, are reliable |
| `LnlUtility.SendTypeRoundTrip` | Transports/LiteNetLib/LnlUtility.cs:9-14 | send type → delivery method → send type is the identity |
| `LnlUtility.DeliveryMethodRoundTrip` | Transports/LiteNetLib/LnlUtility.cs:9-14 | the other way round only unreliable and reliable-ordered survive |
| `LiteNetLibExtensions.ToLnlDeliveryMethod` | Transports/LiteNetLib/LiteNetLibExtensions.cs:7-10 | unreliable stays unreliable; every other value becomes reliable-ordered |
| `LiteNetLibExtensions.ToDeliveryMethod` | Transports/LiteNetLib/LiteNetLibExtensions.cs:12-15 | LiteNetLib's unreliable maps back to unreliable; every other method to reliable |
| `LiteNetLibExtensions.DeliveryMethodRoundTrip` | Transports/LiteNetLib/LiteNetLibExtensions.cs:9-14 | own → LiteNetLib → own is the identity |
| `LiteNetLibExtensions.AgreesWithSendTypes` | Transports/LiteNetLib/LiteNetLibExtensions.cs:9 | both enumerations pick the same LiteNetLib method for the same reliability |
| `LnlTransportClients.LnlTransportClient.constructor` | Transports/LiteNetLib/LnlTransportClient.cs:7 | a new client transport is Stopped |
| `LnlTransportClients.LnlTransportClient.StartConnection` | Transports/LiteNetLib/LnlTransportClient.cs:9-14 | Starting is set before the manager is started and asked to connect |
| `LnlTransportClients.LnlTransportClient.FinishStartConnection` | Transports/LiteNetLib/LnlTransportClient.cs:16-21 | once the status leaves Starting, the start completes exactly when Started, else "failed to connect" |
| `LnlTransportClients.LnlTransportClient.OnPeerConnected` | Transports/LiteNetLib/LnlTransportClient.cs:24-29 | Started is set before the started event is raised |
| `LnlTransportClients.LnlTransportClient.OnPeerDisconnected` | Transports/LiteNetLib/LnlTransportClient.cs:31-41 | the stopped event is raised only when it was Started; always ends Stopped |
| `LnlTransportClients.LnlTransportClient.OnConnectionRequest` | Transports/LiteNetLib/LnlTransportClient.cs:43-46 | every incoming request is rejected |
| `LnlTransportClients.StartOutcomes` | Transports/LiteNetLib/LnlTransportClient.cs:9-41 | a start followed by a connect completes; one followed by a disconnect fails |
| `UnityClients.UnityClient.constructor` | Client/UnityClient.cs:12-16 | a new client is Stopped with no server |
| `UnityClients.UnityClient.ConnectAsync` | Client/UnityClient.cs:27-38 | refused while connecting or connected; otherwise Starting, and the manager is started and asked to connect |
| `UnityClients.UnityClient.FinishConnectAsync` | Client/UnityClient.cs:40-42 | once the status leaves Starting, success exactly when Started, with the last disconnect reason |
| `UnityClients.UnityClient.Disconnect` | Client/UnityClient.cs:50-62 | always ends Stopped, polling events only when asked |
| `UnityClients.UnityClient.SendAsPacketHandlerToServer` | Client/UnityClient.cs:64-70 | refused unless ready; otherwise the framed packet goes to the server |
| `UnityClients.UnityClient.OnPeerConnected` | Client/UnityClient.cs:72-81 | raises `Connected`, then is Started with that peer as server |
| `UnityClients.UnityClient.OnPeerDisconnected` | Client/UnityClient.cs:83-96 | raises `Disconnected` only if it was Started; then Stopped, no server, the disconnect information kept |
| `UnityClients.UnityClient.OnConnectionRequest` | Client/UnityClient.cs:98-101 | every incoming request is rejected |
| `UnityServers.RemoveFirst` | Transports/LiteNetLib/UnityServer.cs:87 | `List.Remove` drops one occurrence of a listed peer and leaves an unlisted one's list unchanged |
| `UnityServers.RemoveFirstAtFirstOccurrence` | Transports/LiteNetLib/UnityServer.cs:87 | a listed peer is removed at its first occurrence, the peers before and after it kept in order |
| `UnityServers.RemoveFirstMultiset` | Transports/LiteNetLib/UnityServer.cs:87 | exactly one occurrence is taken away and nothing else |
| `UnityServers.ConnectThenDisconnect` | Transports/LiteNetLib/UnityServer.cs:78-90 | a new peer that connects then disconnects leaves the list as before |
| `UnityServers.UnityServer.constructor` | Transports/LiteNetLib/UnityServer.cs:12-16 | a new server is not created and has no peers |
| `UnityServers.UnityServer.Create` | Transports/LiteNetLib/UnityServer.cs:29-39 | refused when already created; otherwise the manager starts on the port and the server is created |
| `UnityServers.UnityServer.Close` | Transports/LiteNetLib/UnityServer.cs:59-76 | a no-op when not created; otherwise it ends not created, polling events only when asked |
| `UnityServers.UnityServer.SendAsPacketHandlerToAll` | Transports/LiteNetLib/UnityServer.cs:46-52 | refused unless created; otherwise the framed packet goes to every peer |
| `UnityServers.UnityServer.DisconnectPeer` | Transports/LiteNetLib/UnityServer.cs:54-57 | asks the manager to disconnect that peer |
| `UnityServers.UnityServer.OnPeerConnected` | Transports/LiteNetLib/UnityServer.cs:78-83 | the peer is appended, then `PeerConnected` is raised |
| `UnityServers.UnityServer.OnPeerDisconnected` | Transports/LiteNetLib/UnityServer.cs:85-90 | the peer's first occurrence is removed, then `PeerDisconnected` is raised |
| `UnityServers.UnityServer.OnConnectionRequest` | Transports/LiteNetLib/UnityServer.cs:92-95 | accepted only with the server's connection key |

## Left out

- LiteNetLib, Unity Transport, Unity Relay, Unity Services, UniTask and Unity's
  `MonoBehaviour` life cycle are foreign code. Their calls are recorded in the
  ghost logs or passed in as parameters.
- Asynchronous scheduling: each `await` is a split point, and its continuations
  are separate methods that the environment may call in any order.
- Events raised synchronously inside a call are recorded in the log, not
  executed. Examples are a transport raising status events from inside its own
  `StopConnection`, or LiteNetLib raising peer callbacks from `PollEvents`.
  The network's reaction to them is a separate method call.
- Handler callbacks (`OnReceive`, `OnNetworkStarted`, `OnNetworkStopped`,
  message handlers) are recorded, not run. A handler that re-enters the network
  is not modelled.
- `Connections.ConnectionFactory.CreateNetworkConnection`: the counter is an
  unbounded integer. The 32-bit wrap-around after 2^31 connections is not
  modelled. The same holds for `UtpTransport.nextConnectionId`.
- `NetworkConnection.Network` (the back-reference) is left out; see the
  constructor mismatch above.
- `Network.Dispose`, `NetworkServer.Dispose`, `OnDestroy` and `FixedUpdate`
  are left out. They are life-cycle glue that only calls the modelled
  operations.
- `UtpTransport.StartConnection` (the relay sign-in, allocation and driver
  set-up) is foreign-service code and is left out. The model reaches any
  status through its fields. `UtpTransportServer.cs` and `UtpTransportClient.cs`
  are not part of this model.
- The Unity driver's `ScheduleUpdate`, `IsCreated` check of the driver and
  `Dispose` have no state in the model.
- `UtpTransports.UtpTransport.BeginTrackingConnection` requires that the driver
  connection is not already tracked. The source's `TwoWayDictionary.Add` would
  throw there, and the driver never hands out a tracked connection.
- `UtpTransports.UtpTransport.Tick` requires that the accepted connections are
  distinct and untracked, for the same reason.
- `UtpTransports.UtpTransport.Dispose` states the end state and the
  disconnects only; the full event detail is in `StopConnection`'s contract.
- `UtpSettings.ToUpper` upper-cases ASCII letters only. .NET's culture-aware
  `ToUpper` also maps other Unicode letters.
- The `UnityNetwork` base class of `UnityClient` and `UnityServer` is not part
  of this model. Its send check and framing are read as the network's. Its
  `OnPeerConnected`/`OnPeerDisconnected` bookkeeping is not modelled.
- LiteNetLib's `DisconnectInfo` is reduced to a numeric reason. The reason's
  `ToString` is left out.
- The own `DeliveryMethod` enumeration of `LiteNetLibExtensions.cs` is not
  shown in the source. The model gives it the two values the file names.
- The message type's `Serialize`/`Deserialize` and a list element's `Put`/`Get`
  are parameters. Partial reads of a malformed message are not modelled.
- The unmanaged-memory conversions of relay byte arrays (`ConvertFromAllocationIdBytes` and
  the others) are identities, and `NetworkEndpoint.Parse` keeps host and port.
- Reading and writing `Vector2`, `Vector3`, `Quaternion` and `Guid` in
  `NetSerializationExtensions.cs` is left out. It is floating-point code, and
  the `Guid` layout belongs to .NET.
- `LnlTransport.cs`, `LnlTransportServer.cs`, `UnityRelayTransport.cs` and
  `InMemoryTransport.cs` are not part of this model. They hold socket start-up,
  a duplicate of the modelled LiteNetLib client, or members that only throw
  "not implemented".
- `Clients.NetworkClient.Server`: `FirstOrDefault` over the dictionary's values
  returns whichever connection enumerates first. The model returns some
  tracked connection, without fixing which.
- `Servers.NetworkServer.OnTransportStarted`: when several transports of one
  start fault, the model completes that start on its first fault. This follows
  `UniTask.WhenAll` failing fast. Which exception it rethrows is not modelled.
  The environment names the start a finishing transport belongs to.
- `Wire.Reader.GetInt` and `Networking.Network.TransportOnReceivedData`: a read
  with fewer than four bytes left is modelled as a read-past-end error that
  leaves the position unchanged. `Network.cs:227-229` calls LiteNetLib's
  `GetInt` without a guard. The library reader's real behaviour on a short
  segment is not part of this model: it may throw, or read past the segment.
  The same holds for the short reads in `ListCodec.GetListWithCount`.
