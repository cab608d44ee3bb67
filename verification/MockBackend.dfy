/** The mock backend as the object callers drive: one operation at a time. Each method is proved to
    do what its task does when no other task runs. */
module MockBackend {
  import opened Bytes
  import opened Events
  import opened Progress
  import opened Analyzer
  import opened Mock

  datatype Request = ConfirmJustWorks | ConfirmPasskey(shown: nat) | RequestPinCode | RequestPasskey | DisplayPasskey(show: nat)

  const MOCK_PASSKEY: nat := 123_456

  function RequestFor(method_: Method): Request {
    match method_
    case JustWorks => ConfirmJustWorks
    case NumericComparison => ConfirmPasskey(MOCK_PASSKEY)
    case PinCode => RequestPinCode
    case PasskeyEntry => RequestPasskey
    case PasskeyDisplay => DisplayPasskey(MOCK_PASSKEY)
    case OutOfBand => ConfirmJustWorks
  }

  type Agent = Request -> Response

  /** What the agent answers to a task's prompt. */
  function Reply(agent: Agent, t: Task): Response {
    if t.Pairing? then agent(RequestFor(t.dev.pairingMethod))
    else if t.Accept? && t.left != [] then agent(RequestFor(t.left[0].pairingMethod))
    else Cancel
  }

  /** The state, the final task and the events after running a task to its end on its own. */
  datatype Ran = Ran(st: State, task: Task, events: seq<Event>)

  function Later(es: seq<Event>, event: Option<Event>): seq<Event> {
    if event.Some? then es + [event.value] else es
  }

  function Alone(m: Config, agent: Agent, st: State, t: Task, es: seq<Event>): Ran
    decreases Rank(m, t)
  {
    if Ended(t) then Ran(st, t, es)
    else
      StepEnds(m, st, t, Reply(agent, t));
      var n := Step(m, st, t, Reply(agent, t));
      Alone(m, agent, n.st, n.task, Later(es, n.event))
  }

  lemma AloneStep(m: Config, agent: Agent, st: State, t: Task, es: seq<Event>)
    requires !Ended(t)
    ensures var n := Step(m, st, t, Reply(agent, t));
            Alone(m, agent, st, t, es) == Alone(m, agent, n.st, n.task, Later(es, n.event))
  {
  }

  lemma AloneEnd(m: Config, agent: Agent)
    ensures forall st, t, es :: Ended(t) ==> Alone(m, agent, st, t, es) == Ran(st, t, es)
  {
  }

  /** The state after stamping an event. */
  function Ticked(st: State, dt: nat): State {
    st.(seq_ := st.seq_ + 1, clock := st.clock + dt)
  }

  function LinkEvent(st: State, conn: Connection, kind: Kind): Event {
    Event(st.seq_, st.clock, LinkOrigin(conn), kind)
  }

  /** The beginning of a push: refused at once, or announced. */
  lemma PushOpens(m: Config, agent: Agent, st: State, conn: Connection, file: File, es: seq<Event>)
    ensures var ran := Alone(m, agent, st, Task.PushFile(conn, file), es);
            var d := Lookup(m.devices, conn.peer);
            if conn.token !in st.connections then ran == Ran(st, Done(Failed(NotConnected(conn.peer))), es)
            else if d.None? then ran == Ran(st, Done(Failed(DeviceNotFound(conn.peer))), es)
            else
              ran == Alone(m, agent, Ticked(st, TICK), PushChunk(Push(conn, d.value, file, st.clock, 0, 0)),
                           es + [LinkEvent(st, conn, TransferStarted(file.name, file.len))])
  {
    hide Alone, Lookup, LinkOrigin, LinkFailure, ConnectStep, DisconnectStep, PairStep, AcceptStep, DiscoverStep, RequestFor;
    AloneEnd(m, agent);
    AloneStep(m, agent, st, Task.PushFile(conn, file), es);
    var d := Lookup(m.devices, conn.peer);
    if conn.token in st.connections && d.Some? {
      var p := Push(conn, d.value, file, 0, 0, 0);
      AloneStep(m, agent, st, PushClock(p), es);
      AloneStep(m, agent, st, PushAnnounce(p.(start := st.clock)), es);
    }
  }

  /** One pass of the chunk loop: the scripted failure, or a chunk and its progress report. */
  lemma ChunkAlone(m: Config, agent: Agent, st: State, p: Push, es: seq<Event>)
    requires p.transferred < p.file.len
    ensures var ran := Alone(m, agent, st, PushChunk(p), es);
            var n := NextChunk(p);
            if p.dev.failAfter.Some? && p.transferred + n > p.dev.failAfter.value then
              var reason := LinkFailure(p.dev.failAfter.value);
              ran == Ran(Ticked(st, TICK), PushEnded(p, Err(TransferFailed(p.transferred, reason))),
                         es + [LinkEvent(st, p.conn, Error(reason))])
            else
              var st1, sent := Ticked(st, p.dev.perChunk), p.transferred + n;
              ran == Alone(m, agent, Ticked(st1, 0), PushChunk(p.(transferred := sent, chunks := p.chunks + 1)),
                           es + [LinkEvent(st, p.conn, DataChunk(Outbound, n))]
                           + [LinkEvent(st1, p.conn, TransferProgress(sent, p.file.len))])
  {
    hide Alone, LinkOrigin, LinkFailure, ConnectStep, DisconnectStep, PairStep, AcceptStep, DiscoverStep;
    AloneEnd(m, agent);
    AloneStep(m, agent, st, PushChunk(p), es);
    var n := NextChunk(p);
    if !(p.dev.failAfter.Some? && p.transferred + n > p.dev.failAfter.value) {
      var p' := p.(transferred := p.transferred + n, chunks := p.chunks + 1);
      AloneStep(m, agent, Ticked(st, p.dev.perChunk), PushReport(p'), es + [LinkEvent(st, p.conn, DataChunk(Outbound, n))]);
    }
  }

  /** What follows the last chunk. */
  lemma FinishAlone(m: Config, agent: Agent, st: State, p: Push, es: seq<Event>)
    requires p.transferred >= p.file.len
    ensures var duration := Max(st.clock - p.start, 0);
            var receipt := Receipt(p.file.name, p.transferred, p.chunks, duration);
            var done := LinkEvent(st, p.conn, TransferCompleted(p.transferred, duration));
            Alone(m, agent, st, PushChunk(p), es) == Ran(Ticked(st, TICK), PushEnded(p, Ok(receipt)), es + [done])
  {
    hide Alone, LinkOrigin, LinkFailure, ConnectStep, DisconnectStep, PairStep, AcceptStep, DiscoverStep;
    AloneEnd(m, agent);
    AloneStep(m, agent, st, PushChunk(p), es);
    AloneStep(m, agent, st, PushComplete(p, Max(st.clock - p.start, 0)), es);
  }

  class MockBackend {
    const config: Config
    const observer: Recorder
    var seq_: nat
    var clockNs: nat
    var connections: map<nat, DeviceId>
    var nextToken: nat
    var paired: set<DeviceId>

    constructor (config: Config, observer: Recorder)
      ensures this.config == config && this.observer == observer && Locked() == FRESH
    {
      this.config, this.observer := config, observer;
      seq_, clockNs, connections, nextToken, paired := 0, 0, map[], 1, {};
    }

    /** The state under the lock. */
    function Locked(): State
      reads this
    {
      State(seq_, clockNs, connections, nextToken, paired)
    }

    /** Stamps one event, moves the clock on, and hands the event to the observer. */
    method Emit(origin: Origin, kind: Kind, dt: nat)
      modifies this, observer
      ensures Locked() == old(Locked()).(seq_ := old(seq_) + 1, clock := old(clockNs) + dt)
      ensures observer.events == old(observer.events) + [Event(old(seq_), old(clockNs), origin, kind)]
    {
      var event := Event(seq_, clockNs, origin, kind);
      seq_ := seq_ + 1;
      clockNs := clockNs + dt;
      observer.OnEvent(event);
    }

    method Connect(target: DeviceId, ghost agent: Agent) returns (r: Result<Connection, TransportError>)
      modifies this, observer
      ensures var ran := Alone(config, agent, old(Locked()), ConnectTo(target), old(observer.events));
              && Locked() == ran.st && observer.events == ran.events && ran.task.Done?
              && ran.task.outcome == match r case Ok(c) => Linked(c) case Err(e) => Failed(e)
    {
      hide Alone, Lookup, OriginOf, DisconnectStep, PairStep, AcceptStep, PushStep, DiscoverStep;
      AloneEnd(config, agent);
      var device := Lookup(config.devices, target);
      AloneStep(config, agent, Locked(), ConnectTo(target), observer.events);
      if device.None? {
        return Err(DeviceNotFound(target));
      }
      var d := device.value;
      AloneStep(config, agent, Locked(), ConnectAlloc(d), observer.events);
      var token := nextToken;
      nextToken := nextToken + 1;
      connections := connections[token := target];
      AloneStep(config, agent, Locked(), ConnectAnnounce(d, token), observer.events);
      Emit(OriginOf(config, d), Connected, TICK);
      return Ok(Connection(target, config.local, d.spec, d.radio, d.portAuth, token));
    }

    method Disconnect(conn: Connection, ghost agent: Agent) returns (r: Result<(), TransportError>)
      modifies this, observer
      ensures var ran := Alone(config, agent, old(Locked()), Task.Disconnect(conn), old(observer.events));
              && Locked() == ran.st && observer.events == ran.events && ran.task.Done?
              && ran.task.outcome == match r case Ok(_) => Unlinked(conn.token) case Err(e) => Failed(e)
    {
      hide Alone, LinkOrigin, ConnectStep, PairStep, AcceptStep, PushStep, DiscoverStep;
      AloneEnd(config, agent);
      AloneStep(config, agent, Locked(), Task.Disconnect(conn), observer.events);
      if conn.token !in connections {
        return Err(NotConnected(conn.peer));
      }
      connections := connections - {conn.token};
      AloneStep(config, agent, Locked(), DisconnectAnnounce(conn), observer.events);
      Emit(LinkOrigin(conn), Disconnected(None), TICK);
      return Ok(());
    }

    method Pair(target: DeviceId, agent: Agent) returns (r: Result<Method, TransportError>)
      modifies this, observer
      ensures var ran := Alone(config, agent, old(Locked()), PairWith(target), old(observer.events));
              && Locked() == ran.st && observer.events == ran.events && ran.task.Done?
              && ran.task.outcome == match r case Ok(method_) => Bonded(method_) case Err(e) => Failed(e)
    {
      hide Alone, Lookup, OriginOf, RequestFor, ConnectStep, DisconnectStep, AcceptStep, PushStep, DiscoverStep;
      AloneEnd(config, agent);
      AloneStep(config, agent, Locked(), PairWith(target), observer.events);
      var device := Lookup(config.devices, target);
      if device.None? {
        return Err(DeviceNotFound(target));
      }
      var d := device.value;
      var origin := OriginOf(config, d);
      AloneStep(config, agent, Locked(), Pairing(d, Announce), observer.events);
      Emit(origin, PairingStarted(d.pairingMethod), TICK);
      var response := agent(RequestFor(d.pairingMethod));
      AloneStep(config, agent, Locked(), Pairing(d, Ask), observer.events);
      AloneStep(config, agent, Locked(), Pairing(d, Answered(d, response)), observer.events);
      if Rejects(response) {
        Emit(origin, PairingFailed(DECLINED), TICK);
        return Err(PairingRejected(DECLINED));
      }
      if d.pairingFailure.Some? {
        Emit(origin, PairingFailed(d.pairingFailure.value), TICK);
        return Err(PairingFailure(d.pairingFailure.value));
      }
      paired := paired + {target};
      AloneStep(config, agent, Locked(), Pairing(d, Confirming), observer.events);
      Emit(origin, PairingCompleted, TICK);
      return Ok(d.pairingMethod);
    }

    /** `bytes` is the file's content; the mock only counts it. */
    method PushFile(conn: Connection, name: string, bytes: seq<byte>, ghost agent: Agent)
      returns (r: Result<Receipt, TransportError>)
      modifies this, observer
      ensures var ran := Alone(config, agent, old(Locked()), Task.PushFile(conn, File(name, |bytes|)), old(observer.events));
              && Locked() == ran.st && observer.events == ran.events
              && (ran.task.PushEnded? || (ran.task.Done? && ran.task.outcome.Failed?))
              && r == if ran.task.PushEnded? then ran.task.result else Err(ran.task.outcome.error)
    {
      hide Alone, Lookup, LinkOrigin;
      PushOpens(config, agent, Locked(), conn, File(name, |bytes|), observer.events);
      if conn.token !in connections {
        return Err(NotConnected(conn.peer));
      }
      var device := Lookup(config.devices, conn.peer);
      if device.None? {
        return Err(DeviceNotFound(conn.peer));
      }
      var d := device.value;
      var total := |bytes|;
      var start := clockNs;
      Emit(LinkOrigin(conn), TransferStarted(name, total), TICK);
      r := SendChunks(conn, d, name, total, start, agent);
    }

    /** The chunk loop of a push and what follows it. */
    method SendChunks(conn: Connection, d: Device, name: string, total: nat, start: nat, ghost agent: Agent)
      returns (r: Result<Receipt, TransportError>)
      modifies this, observer
      ensures var p := Push(conn, d, File(name, total), start, 0, 0);
              var ran := Alone(config, agent, old(Locked()), PushChunk(p), old(observer.events));
              Locked() == ran.st && observer.events == ran.events && ran.task.PushEnded? && r == ran.task.result
    {
      hide Alone, LinkOrigin, LinkFailure, ChunkSize;
      ghost var p := Push(conn, d, File(name, total), start, 0, 0);
      ghost var goal := Alone(config, agent, Locked(), PushChunk(p), observer.events);
      var chunkSize := ChunkSize(d);
      var transferred: nat := 0;
      var chunks: nat := 0;
      while transferred < total
        invariant p == Push(conn, d, File(name, total), start, transferred, chunks)
        invariant transferred <= total
        invariant goal == Alone(config, agent, Locked(), PushChunk(p), observer.events)
        decreases total - transferred
      {
        var n := Min(chunkSize, total - transferred);
        ChunkAlone(config, agent, Locked(), p, observer.events);
        if d.failAfter.Some? && transferred + n > d.failAfter.value {
          var reason := LinkFailure(d.failAfter.value);
          Emit(LinkOrigin(conn), Error(reason), TICK);
          r := Err(TransferFailed(transferred, reason));
          return;
        }
        Emit(LinkOrigin(conn), DataChunk(Outbound, n), d.perChunk);
        transferred := transferred + n;
        chunks := chunks + 1;
        Emit(LinkOrigin(conn), TransferProgress(transferred, total), 0);
        p := p.(transferred := transferred, chunks := chunks);
      }
      FinishAlone(config, agent, Locked(), p, observer.events);
      var duration := Max(clockNs - start, 0);
      Emit(LinkOrigin(conn), TransferCompleted(transferred, duration), TICK);
      r := Ok(Receipt(name, transferred, chunks, duration));
    }

    method AcceptPairings(agent: Agent, max: Option<nat>, window: nat) returns (bonded: seq<DeviceId>)
      modifies this, observer
      ensures var ran := Alone(config, agent, old(Locked()), AcceptAll(max, window), old(observer.events));
              && Locked() == ran.st && observer.events == ran.events
              && ran.task == Done(BondedAll(bonded))
    {
      hide Alone, OriginOf, RequestFor, ConnectStep, DisconnectStep, PairStep, PushStep, DiscoverStep, Lookup;
      AloneEnd(config, agent);
      ghost var goal := Alone(config, agent, Locked(), AcceptAll(max, window), observer.events);
      AloneStep(config, agent, Locked(), AcceptAll(max, window), observer.events);
      var limit := if max.Some? then Min(max.value, |config.incoming|) else |config.incoming|;
      var devices := config.incoming[..limit];
      bonded := [];
      var i := 0;
      while i < |devices|
        invariant 0 <= i <= |devices|
        invariant goal == Alone(config, agent, Locked(), Accept(devices[i..], Announce, bonded, window), observer.events)
      {
        assert devices[i..][1..] == devices[i + 1..];
        var ok := AcceptOne(devices[i], devices[i..], bonded, window, agent);
        if ok {
          bonded := bonded + [devices[i].id];
        }
        i := i + 1;
      }
      AloneStep(config, agent, Locked(), Accept([], Announce, bonded, window), observer.events);
      clockNs := clockNs + window;
    }

    /** One inbound device: announced, put to the agent, and bonded unless declined or scripted to fail. */
    method AcceptOne(d: Device, ghost left: seq<Device>, ghost bonded: seq<DeviceId>, ghost window: nat, agent: Agent)
      returns (ok: bool)
      requires left != [] && left[0] == d
      modifies this, observer
      ensures Alone(config, agent, old(Locked()), Accept(left, Announce, bonded, window), old(observer.events))
           == Alone(config, agent, Locked(),
                    Accept(left[1..], Announce, if ok then bonded + [d.id] else bonded, window), observer.events)
    {
      hide Alone, OriginOf, RequestFor, ConnectStep, DisconnectStep, PairStep, PushStep, DiscoverStep, Lookup;
      ghost var goal := Alone(config, agent, Locked(), Accept(left, Announce, bonded, window), observer.events);
      var origin := OriginOf(config, d);
      AloneStep(config, agent, Locked(), Accept(left, Announce, bonded, window), observer.events);
      Emit(origin, PairingStarted(d.pairingMethod), TICK);
      assert goal == Alone(config, agent, Locked(), Accept(left, Ask, bonded, window), observer.events);
      var response := agent(RequestFor(d.pairingMethod));
      AloneStep(config, agent, Locked(), Accept(left, Ask, bonded, window), observer.events);
      AloneStep(config, agent, Locked(), Accept(left, Answered(d, response), bonded, window), observer.events);
      if Rejects(response) {
        Emit(origin, PairingFailed(DECLINED), TICK);
        return false;
      }
      if d.pairingFailure.Some? {
        Emit(origin, PairingFailed(d.pairingFailure.value), TICK);
        return false;
      }
      paired := paired + {d.id};
      assert goal == Alone(config, agent, Locked(), Accept(left, Confirming, bonded, window), observer.events);
      AloneStep(config, agent, Locked(), Accept(left, Confirming, bonded, window), observer.events);
      Emit(origin, PairingCompleted, TICK);
      return true;
    }

    method Discover(filter: Filter, ghost agent: Agent) returns (found: seq<DeviceId>)
      modifies this, observer
      ensures var ran := Alone(config, agent, old(Locked()), Task.Discover(filter), old(observer.events));
              && Locked() == ran.st && observer.events == ran.events
              && ran.task == Done(Found(found))
    {
      hide Alone, OriginOf, AdapterOrigin, Matches, Lookup, ConnectStep, DisconnectStep, PairStep, AcceptStep, PushStep;
      AloneEnd(config, agent);
      ghost var goal := Alone(config, agent, Locked(), Task.Discover(filter), observer.events);
      AloneStep(config, agent, Locked(), Task.Discover(filter), observer.events);
      Emit(AdapterOrigin(config), DiscoveryStarted, TICK);
      var devices := config.devices;
      found := [];
      var i := 0;
      while i < |devices|
        invariant 0 <= i <= |devices|
        invariant Alone(config, agent, Locked(), DiscoverNext(devices[i..], filter, found), observer.events) == goal
      {
        var d := devices[i];
        assert devices[i..][1..] == devices[i + 1..];
        AloneStep(config, agent, Locked(), DiscoverNext(devices[i..], filter, found), observer.events);
        if !Matches(config, filter, d) {
          i := i + 1;
          continue;
        }
        if filter.limit.Some? && |found| >= filter.limit.value {
          return;
        }
        Emit(OriginOf(config, d), DeviceDiscovered(d.rssi), TICK);
        found := found + [d.id];
        i := i + 1;
      }
      AloneStep(config, agent, Locked(), DiscoverNext([], filter, found), observer.events);
    }
  }
}
