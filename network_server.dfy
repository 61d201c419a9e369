/** The server flavour of the network (NetworkServer.cs): a list of transports
    started together, where the server counts as started as soon as any one of
    them is up. The asynchronous start is split into its synchronous part
    (`StartConnection`) and one continuation per transport whose start
    finishes (`OnTransportStarted`, `OnTransportStartFailed`), which the
    environment may deliver in any order. */
module Servers {
  import opened NetTypes
  import opened Networking

  /** The two calls made on each transport when starting, and when stopping. */
  datatype Phase = StartPhase | StopPhase

  function PairFor(p: Phase, t: TransportId): (Effect, Effect)
  {
    match p
    case StartPhase => (SetNetwork(t, true), StartTransport(t))
    case StopPhase => (StopTransport(t), SetNetwork(t, false))
  }

  /** The calls made on each transport of `ts`, in list order. */
  function PairEffects(p: Phase, ts: seq<TransportId>): seq<Effect>
  {
    if ts == [] then []
    else PairEffects(p, ts[..|ts| - 1]) + [PairFor(p, ts[|ts| - 1]).0, PairFor(p, ts[|ts| - 1]).1]
  }

  /** One `Tick` per transport of `ts`, in list order. */
  function TickEffects(ts: seq<TransportId>): seq<Effect>
  {
    if ts == [] then [] else TickEffects(ts[..|ts| - 1]) + [TickTransport(ts[|ts| - 1])]
  }

  /** Both calls reach every transport, transport `i` getting calls `2i` and `2i+1`:
      every transport exactly once, in list order. */
  lemma {:induction false} PairEffectsInOrder(p: Phase, ts: seq<TransportId>)
    ensures |PairEffects(p, ts)| == 2 * |ts|
    ensures forall i :: 0 <= i < |ts| ==>
              PairEffects(p, ts)[2 * i] == PairFor(p, ts[i]).0 && PairEffects(p, ts)[2 * i + 1] == PairFor(p, ts[i]).1
  {
    if ts != [] {
      var init := ts[..|ts| - 1];
      PairEffectsInOrder(p, init);
      forall i | 0 <= i < |ts| - 1
        ensures PairEffects(p, ts)[2 * i] == PairFor(p, ts[i]).0 && PairEffects(p, ts)[2 * i + 1] == PairFor(p, ts[i]).1
      {
        assert init[i] == ts[i];
      }
    }
  }

  /** Every transport is ticked exactly once, in list order. */
  lemma {:induction false} TickEffectsInOrder(ts: seq<TransportId>)
    ensures |TickEffects(ts)| == |ts|
    ensures forall i :: 0 <= i < |ts| ==> TickEffects(ts)[i] == TickTransport(ts[i])
  {
    if ts != [] {
      var init := ts[..|ts| - 1];
      TickEffectsInOrder(init);
      forall i | 0 <= i < |ts| - 1 ensures TickEffects(ts)[i] == TickTransport(ts[i]) {
        assert init[i] == ts[i];
      }
    }
  }

  /** Registering the network's handlers with every transport of `ts`, in order. */
  function SubscribeAll(m: map<TransportId, Listeners>, ts: seq<TransportId>): map<TransportId, Listeners>
  {
    if ts == [] then m
    else var m' := SubscribeAll(m, ts[..|ts| - 1]);
         m'[ts[|ts| - 1] := Subscribe(ListenersOf(m', ts[|ts| - 1]))]
  }

  /** Unregistering, as written, from every transport of `ts`, in order. */
  function UnsubscribeAll(m: map<TransportId, Listeners>, ts: seq<TransportId>): map<TransportId, Listeners>
  {
    if ts == [] then m
    else var m' := UnsubscribeAll(m, ts[..|ts| - 1]);
         m'[ts[|ts| - 1] := UnsubscribeAsWritten(ListenersOf(m', ts[|ts| - 1]))]
  }

  /** After a stop every transport of the list still has the status handler attached
      (one more time than before), so its connection events keep reaching the
      network; transports outside the list are untouched. */
  lemma {:induction false} StopKeepsStatusListeners(m: map<TransportId, Listeners>, ts: seq<TransportId>)
    ensures forall t :: t in ts ==> ListenersOf(UnsubscribeAll(m, ts), t).status > ListenersOf(m, t).status
    ensures forall t :: t !in ts ==> ListenersOf(UnsubscribeAll(m, ts), t) == ListenersOf(m, t)
  {
    if ts != [] {
      var init := ts[..|ts| - 1];
      StopKeepsStatusListeners(m, init);
      forall t | t in ts ensures ListenersOf(UnsubscribeAll(m, ts), t).status > ListenersOf(m, t).status {
        if t != ts[|ts| - 1] {
          var i :| 0 <= i < |ts| && ts[i] == t;
          assert init[i] == t;
        }
      }
    }
  }

  /** Some transport of `ts` reports Stopped. */
  predicate AnyTransportStopped(ts: seq<TransportId>, statusOf: TransportId -> LocalConnectionStatus)
  {
    exists i :: 0 <= i < |ts| && statusOf(ts[i]) == Stopped
  }

  /** Every transport of `ts` reports Started (the check Network.cs:60 names). */
  predicate AllTransportsStarted(ts: seq<TransportId>, statusOf: TransportId -> LocalConnectionStatus)
  {
    forall i :: 0 <= i < |ts| ==> statusOf(ts[i]) == Started
  }

  /** The two checks differ: with one transport Started and another still Starting, no
      transport is stopped, yet not all are started, so reading the tick check as
      "all started" would stop a server that NetworkServer.cs:109-110 means to keep
      running. */
  lemma AllStartedDiffersFromNoneStopped()
    ensures var ts: seq<TransportId> := [0, 1];
            var statusOf := (t: TransportId) => if t == 0 then Started else Starting;
            !AnyTransportStopped(ts, statusOf) && !AllTransportsStarted(ts, statusOf)
  {
    var ts: seq<TransportId> := [0, 1];
    var statusOf := (t: TransportId) => if t == 0 then Started else Starting;
    assert statusOf(ts[1]) == Starting;
  }

  /** One `StartConnection` call still in the air: the transports whose own start has
      not finished yet (counted with multiplicity, as the list may repeat one), and
      whether its `WhenAll` has completed (returned or thrown). */
  datatype PendingStart = PendingStart(awaiting: multiset<TransportId>, completed: bool)

  /** Every start other than `except` that has not completed still waits for some
      transport: a start completes on its last transport at the latest. */
  ghost predicate OpenStartsWait(starts: seq<PendingStart>, except: int)
  {
    forall j :: 0 <= j < |starts| && j != except && !starts[j].completed ==> starts[j].awaiting != multiset{}
  }

  class NetworkServer {
    const net: Network
    var transports: seq<TransportId>
    /** Every `StartConnection` call made so far, in call order, with what its
        `WhenAll` still waits for. */
    var starts: seq<PendingStart>

    ghost predicate Valid()
      reads this, net, net.tracker, net.tracker.factory
    {
      net.Valid() && OpenStartsWait(starts, -1)
    }

    /** `NetworkServer(transports)`: a stopped network over a copy of the list. */
    constructor (ts: seq<TransportId>)
      ensures Valid() && fresh(net) && transports == ts && net.status == Stopped && starts == []
    {
      net := new Network();
      transports := ts;
      starts := [];
    }

    /** `SetTransports`: only while stopped; the list is replaced wholesale, in the
        given order. */
    method SetTransports(ts: seq<TransportId>) returns (r: Outcome)
      modifies this`transports
      ensures net.status != Stopped ==> r == Fail(NotStopped) && transports == old(transports)
      ensures net.status == Stopped ==> r == Ok && transports == ts
    {
      if net.status != Stopped {
        return Fail(NotStopped);
      }
      transports := ts;
      r := Ok;
    }

    /** `AreAnyTransportsStopped`: true exactly when some transport reports Stopped. */
    method AreAnyTransportsStopped(statusOf: TransportId -> LocalConnectionStatus) returns (r: bool)
      ensures r <==> AnyTransportStopped(transports, statusOf)
    {
      for i := 0 to |transports|
        invariant forall k :: 0 <= k < i ==> statusOf(transports[k]) != Stopped
      {
        if statusOf(transports[i]) == Stopped {
          return true;
        }
      }
      return false;
    }

    /** `OnTickTransports`: ticks every transport once, in list order. */
    method OnTickTransports()
      modifies net`effects
      ensures net.effects == old(net.effects) + TickEffects(transports)
    {
      for i := 0 to |transports|
        invariant net.effects == old(net.effects) + TickEffects(transports[..i])
      {
        assert transports[..i + 1][..i] == transports[..i];
        net.effects := net.effects + [TickTransport(transports[i])];
      }
      assert transports[..|transports|] == transports;
    }

    /** `StopConnection`: every transport is stopped and detached and its events
        unregistered (as written), in list order, and the server ends Stopped. */
    method StopConnection()
      modifies net`status, net`listeners, net`effects
      ensures net.status == Stopped
      ensures net.effects == old(net.effects) + PairEffects(StopPhase, transports)
      ensures net.listeners == UnsubscribeAll(old(net.listeners), transports)
    {
      for i := 0 to |transports|
        invariant net.effects == old(net.effects) + PairEffects(StopPhase, transports[..i])
        invariant net.listeners == UnsubscribeAll(old(net.listeners), transports[..i])
      {
        assert transports[..i + 1][..i] == transports[..i];
        var t := transports[i];
        net.effects := net.effects + [StopTransport(t), SetNetwork(t, false)];
        net.UnregisterTransportEvents(t);
      }
      assert transports[..|transports|] == transports;
      net.status := Stopped;
    }

    /** `StartConnection`, up to its first wait: refused unless stopped; otherwise the
        server is Starting and each transport, in list order, has the network's
        handlers registered, is attached and is asked to start. The call becomes start
        number `|old(starts)|`, waiting for every transport of the list; with no
        transports it completes at once and the server stays Starting. */
    method StartConnection() returns (r: Option<Outcome>)
      requires Valid()
      modifies net`status, net`listeners, net`effects, this`starts
      ensures Valid()
      ensures old(net.status) != Stopped ==>
                r == Some(ValidateIsStopped(old(net.status))) && net.status == old(net.status) &&
                net.listeners == old(net.listeners) && net.effects == old(net.effects) && starts == old(starts)
      ensures old(net.status) == Stopped ==>
                net.status == Starting &&
                net.listeners == SubscribeAll(old(net.listeners), transports) &&
                net.effects == old(net.effects) + PairEffects(StartPhase, transports) &&
                starts == old(starts) + [PendingStart(multiset(transports), transports == [])] &&
                (transports == [] ==> r == Some(Ok)) &&
                (transports != [] ==> r == None)
    {
      var v := ValidateIsStopped(net.status);
      if v.Fail? {
        return Some(v);
      }
      net.status := Starting;
      for i := 0 to |transports|
        invariant net.status == Starting && starts == old(starts)
        invariant net.effects == old(net.effects) + PairEffects(StartPhase, transports[..i])
        invariant net.listeners == SubscribeAll(old(net.listeners), transports[..i])
      {
        assert transports[..i + 1][..i] == transports[..i];
        var t := transports[i];
        assert PairEffects(StartPhase, transports[..i + 1]) ==
               PairEffects(StartPhase, transports[..i]) + [SetNetwork(t, true), StartTransport(t)];
        net.RegisterTransportEvents(t);
        net.effects := net.effects + [SetNetwork(t, true), StartTransport(t)];
      }
      assert transports[..|transports|] == transports;
      AwaitTransports();
      r := if transports == [] then Some(Ok) else None;
    }

    /** The new start's `WhenAll` waits for every transport of the list; an empty list
        completes it at once. Earlier starts keep their own records. */
    method AwaitTransports()
      requires OpenStartsWait(starts, -1)
      modifies this`starts
      ensures starts == old(starts) + [PendingStart(multiset(transports), transports == [])]
      ensures OpenStartsWait(starts, -1)
    {
      if transports != [] {
        assert transports[0] in multiset(transports);
      }
      starts := starts + [PendingStart(multiset(transports), transports == [])];
    }

    /** What a faulted transport start does to start `k`: when that start has not
        completed, its catch stops the server and it completes with the wrapped error,
        whichever start it is; a start that has already completed ignores the fault. */
    method Fault(k: nat, e: Error) returns (r: Option<Outcome>)
      requires net.Valid() && k < |starts| && OpenStartsWait(starts, k)
      modifies net`status, net`listeners, net`effects, this`starts
      ensures Valid()
      ensures !old(starts[k].completed) ==>
                r == Some(Fail(StartException(e))) && starts == old(starts)[k := old(starts[k]).(completed := true)] &&
                net.status == Stopped &&
                net.effects == old(net.effects) + PairEffects(StopPhase, transports) &&
                net.listeners == UnsubscribeAll(old(net.listeners), transports)
      ensures old(starts[k].completed) ==>
                r == None && starts == old(starts) && net.status == old(net.status) &&
                net.effects == old(net.effects) && net.listeners == old(net.listeners)
    {
      if !starts[k].completed {
        starts := starts[k := starts[k].(completed := true)];
        StopConnection();
        return Some(Fail(StartException(e)));
      }
      r := None;
    }

    /** A transport's start has finished, one way or the other: it leaves start `k`,
        the start that asked for it. */
    method Arrive(k: nat, t: TransportId)
      requires k < |starts| && t in starts[k].awaiting
      requires OpenStartsWait(starts, -1)
      modifies this`starts
      ensures starts == old(starts)[k := old(starts[k]).(awaiting := old(starts[k].awaiting) - multiset{t})]
      ensures OpenStartsWait(starts, k)
    {
      starts := starts[k := starts[k].(awaiting := starts[k].awaiting - multiset{t})];
    }

    /** A transport's start, asked for by start `k`, finished (the rest of
        `StartTransport`). If the server was stopped meanwhile this is a fault of start
        `k`; otherwise the server is Started at once, whatever the other transports
        are doing, and start `k` completes when its last transport has finished. */
    method OnTransportStarted(k: nat, t: TransportId) returns (r: Option<Outcome>)
      requires Valid()
      requires k < |starts| && t in starts[k].awaiting
      modifies net`status, net`listeners, net`effects, this`starts
      ensures Valid()
      ensures |starts| == |old(starts)| && starts[k].awaiting == old(starts[k].awaiting) - multiset{t}
      ensures forall j :: 0 <= j < |starts| && j != k ==> starts[j] == old(starts[j])
      ensures old(net.status) == Stopped && !old(starts[k].completed) ==>
                r == Some(Fail(StartException(StoppedWhileStarting))) && net.status == Stopped && starts[k].completed &&
                net.effects == old(net.effects) + PairEffects(StopPhase, transports) &&
                net.listeners == UnsubscribeAll(old(net.listeners), transports)
      ensures old(net.status) == Stopped && old(starts[k].completed) ==>
                r == None && net.status == Stopped && net.effects == old(net.effects) &&
                net.listeners == old(net.listeners) && starts[k].completed
      ensures old(net.status) != Stopped ==>
                net.status == Started && net.effects == old(net.effects) && net.listeners == old(net.listeners) &&
                (r.Some? ==> r == Some(Ok)) &&
                (r == Some(Ok) <==> !old(starts[k].completed) && starts[k].awaiting == multiset{}) &&
                starts[k].completed == (old(starts[k].completed) || starts[k].awaiting == multiset{})
    {
      Arrive(k, t);
      if net.status == Stopped {
        r := Fault(k, StoppedWhileStarting);
      } else {
        r := MarkStarted(k);
      }
    }

    /** The success path of a transport's start: the server is Started, and start `k`
        completes, with success, if this was its last transport. */
    method MarkStarted(k: nat) returns (r: Option<Outcome>)
      requires net.Valid() && k < |starts| && OpenStartsWait(starts, k)
      modifies net`status, this`starts
      ensures Valid() && net.status == Started
      ensures r.Some? ==> r == Some(Ok)
      ensures r == Some(Ok) <==> !old(starts[k].completed) && old(starts[k].awaiting) == multiset{}
      ensures starts == old(starts)[k := old(starts[k]).(completed := old(starts[k].completed) || old(starts[k].awaiting) == multiset{})]
    {
      net.status := Started;
      r := None;
      if !starts[k].completed && starts[k].awaiting == multiset{} {
        starts := starts[k := starts[k].(completed := true)];
        r := Some(Ok);
      }
    }

    /** A transport's own `StartConnection`, asked for by start `k`, threw. */
    method OnTransportStartFailed(k: nat, t: TransportId) returns (r: Option<Outcome>)
      requires Valid()
      requires k < |starts| && t in starts[k].awaiting
      modifies net`status, net`listeners, net`effects, this`starts
      ensures Valid()
      ensures |starts| == |old(starts)| && starts[k].awaiting == old(starts[k].awaiting) - multiset{t}
      ensures forall j :: 0 <= j < |starts| && j != k ==> starts[j] == old(starts[j])
      ensures starts[k].completed
      ensures !old(starts[k].completed) ==>
                r == Some(Fail(StartException(TransportStartFailed))) && net.status == Stopped &&
                net.effects == old(net.effects) + PairEffects(StopPhase, transports) &&
                net.listeners == UnsubscribeAll(old(net.listeners), transports)
      ensures old(starts[k].completed) ==>
                r == None && net.status == old(net.status) && net.effects == old(net.effects) &&
                net.listeners == old(net.listeners)
    {
      Arrive(k, t);
      r := Fault(k, TransportStartFailed);
    }

    /** `Tick`: first stops the server if it is Started and some transport reports
        Stopped, then ticks every transport, then pushes events, in that order. */
    method Tick(statusOf: TransportId -> LocalConnectionStatus) returns (ghost order: seq<int32>)
      requires Valid()
      modifies net`status, net`listeners, net`effects, net`previousStatus, net`eventQueue
      ensures Valid()
      ensures var stops := old(net.status) == Started && AnyTransportStopped(transports, statusOf);
              net.status == (if stops then Stopped else old(net.status)) &&
              net.effects == old(net.effects) + (if stops then PairEffects(StopPhase, transports) else []) +
                             TickEffects(transports) +
                             PushEffects(old(net.previousStatus), net.status, old(net.eventQueue), net.packetHandlers, order) &&
              (NotifiesHandlers(old(net.previousStatus), net.status) ==> IsEnumeration(order, net.packetHandlers.Keys)) &&
              net.listeners == (if stops then UnsubscribeAll(old(net.listeners), transports) else old(net.listeners))
      ensures net.previousStatus == (if NotifiesHandlers(old(net.previousStatus), net.status) then net.status else old(net.previousStatus))
      ensures net.eventQueue == (if Drains(old(net.previousStatus), net.status) then [] else old(net.eventQueue))
    {
      var anyStopped := AreAnyTransportsStopped(statusOf);
      if net.status == Started && anyStopped {
        StopConnection();
      }
      OnTickTransports();
      order := net.PushEvents();
    }
  }

  /** A fault of an earlier start is still that start's fault. Start with transports
      0 and 1, stop the server and start it again; then the first start's
      transport 1 fails: the first start's catch stops the
      server again and rethrows wrapped, while the second start is still waiting. */
  method EarlierStartFaultStops() returns (first: Option<Outcome>, second: Option<Outcome>, late: Option<Outcome>, status: LocalConnectionStatus)
    ensures first == None && second == None
    ensures late == Some(Fail(StartException(TransportStartFailed))) && status == Stopped
  {
    var s := new NetworkServer([0, 1]);
    first := s.StartConnection();
    s.StopConnection();
    second := s.StartConnection();
    assert !s.starts[0].completed && 1 in s.starts[0].awaiting;
    late := s.OnTransportStartFailed(0, 1);
    status := s.net.status;
  }
}
