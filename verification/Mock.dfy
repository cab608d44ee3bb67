/** The mock backend as atomic steps. Each operation is a task; one step of a task is one section
    under the state lock, one wait for the pairing agent, or one bookkeeping move. Steps of
    different tasks may interleave in any way. */
module Mock {
  import opened Bytes
  import opened Events
  import opened Progress

  /** Virtual time charged per control event: one millisecond. */
  const TICK: nat := 1_000_000

  datatype Device = Device(
    id: DeviceId, name: Option<string>, spec: SpecContext, radio: string, portAuth: string, rssi: Option<int>,
    pairingMethod: Method, pairingFailure: Option<string>,
    chunkSize: nat, perChunk: nat, failAfter: Option<nat>)

  /** The parts of the backend that never change, and `str::to_lowercase`, which may be any function. */
  datatype Config = Config(local: string, spec: SpecContext, radio: string, portAuth: string,
                           devices: seq<Device>, incoming: seq<Device>, lower: string -> string)

  /** The state under the lock. */
  datatype State = State(seq_: nat, clock: nat, connections: map<nat, DeviceId>, nextToken: nat, paired: set<DeviceId>)

  const FRESH := State(0, 0, map[], 1, {})

  datatype Connection = Connection(peer: DeviceId, local: string, spec: SpecContext, radio: string, portAuth: string, token: nat)

  datatype File = File(name: string, len: nat)

  datatype Filter = Filter(transport: Option<Transport>, nameContains: Option<string>, minRssi: Option<int>,
                           limit: Option<nat>)

  datatype Response = Confirm(yes: bool) | Pin(pin: string) | Passkey(passkey: nat) | Acknowledged | Cancel

  function OriginOf(m: Config, d: Device): Origin {
    Origin(m.local, d.id, d.spec, d.radio, d.portAuth)
  }

  function LinkOrigin(c: Connection): Origin {
    Origin(c.local, c.peer, c.spec, c.radio, c.portAuth)
  }

  function AdapterOrigin(m: Config): Origin {
    Origin(m.local, DeviceId([0, 0, 0, 0, 0, 0], Public), m.spec, m.radio, m.portAuth)
  }

  /** The first scripted device with an id. */
  function Lookup(devices: seq<Device>, id: DeviceId): (d: Option<Device>)
    ensures d.Some? ==> d.value.id == id && d.value in devices
  {
    if devices == [] then None
    else if devices[0].id == id then Some(devices[0])
    else Lookup(devices[1..], id)
  }

  // ---------------------------------------------------------------- tasks

  datatype Stage = Announce | Ask | Refuse(reason: string, error: TransportError) | Remember | Confirming

  datatype Push = Push(conn: Connection, dev: Device, file: File, start: nat, transferred: nat, chunks: nat)

  datatype Outcome =
    | Linked(conn: Connection)
    | Unlinked(token: nat)
    | Bonded(method_: Method)
    | BondedAll(ids: seq<DeviceId>)
    | Found(ids: seq<DeviceId>)
    | Failed(error: TransportError)

  datatype Task =
    | ConnectTo(target: DeviceId)
    | ConnectAlloc(dev: Device)
    | ConnectAnnounce(dev: Device, token: nat)
    | Disconnect(conn: Connection)
    | DisconnectAnnounce(conn: Connection)
    | PairWith(target: DeviceId)
    | Pairing(dev: Device, stage: Stage)
    | AcceptAll(max: Option<nat>, window: nat)
    | Accept(left: seq<Device>, stage: Stage, bonded: seq<DeviceId>, window: nat)
    | PushFile(conn: Connection, file: File)
    | PushClock(p: Push)
    | PushAnnounce(p: Push)
    | PushChunk(p: Push)
    | PushReport(p: Push)
    | PushComplete(p: Push, duration: nat)
    | PushEnded(p: Push, result: Result<Receipt, TransportError>)
    | Discover(filter: Filter)
    | DiscoverNext(left: seq<Device>, filter: Filter, found: seq<DeviceId>)
    | Done(outcome: Outcome)

  predicate Initial(t: Task) {
    t.ConnectTo? || t.Disconnect? || t.PairWith? || t.AcceptAll? || t.PushFile? || t.Discover?
  }

  predicate Ended(t: Task) {
    t.Done? || t.PushEnded?
  }

  /** One step: the new state, what the task does next, and the event it stamped, if any. */
  datatype Next = Next(st: State, task: Task, event: Option<Event>)

  /** A step that stamps an event: the next sequence number, the current time, then the clock moves. */
  function Stamp(st: State, origin: Origin, kind: Kind, dt: nat, task: Task): Next {
    Next(st.(seq_ := st.seq_ + 1, clock := st.clock + dt), task, Some(Event(st.seq_, st.clock, origin, kind)))
  }

  function Quiet(st: State, task: Task): Next {
    Next(st, task, None)
  }

  predicate Rejects(r: Response) {
    r == Confirm(false) || r.Cancel?
  }

  const DECLINED: string := "declined by pairing agent"

  /** Where the agent's answer and the device's script lead. */
  function Answered(d: Device, r: Response): Stage {
    if Rejects(r) then Refuse(DECLINED, PairingRejected(DECLINED))
    else if d.pairingFailure.Some? then Refuse(d.pairingFailure.value, PairingFailure(d.pairingFailure.value))
    else Remember
  }

  function ChunkSize(d: Device): (c: nat)
    ensures c >= 1
  {
    Max(d.chunkSize, 1)
  }

  function NextChunk(p: Push): nat {
    Min(ChunkSize(p.dev), Max(p.file.len - p.transferred, 0))
  }

  function LinkFailure(limit: nat): string {
    "simulated link failure at " + Decimal(limit) + " bytes"
  }

  predicate OccursAt(s: string, part: string, i: int) {
    0 <= i <= |s| - |part| && s[i..i + |part|] == part
  }

  predicate Contains(s: string, part: string) {
    exists i | 0 <= i <= |s| :: OccursAt(s, part, i)
  }

  predicate Matches(m: Config, f: Filter, d: Device) {
    && (f.transport.Some? ==> d.spec.transport == f.transport.value || d.spec.transport == Dual || f.transport.value == Dual)
    && (f.minRssi.Some? ==> d.rssi.Some? && d.rssi.value >= f.minRssi.value)
    && (f.nameContains.Some? ==> d.name.Some? && Contains(m.lower(d.name.value), m.lower(f.nameContains.value)))
  }

  function ConnectStep(m: Config, st: State, t: Task): Next
    requires IsConnect(t)
  {
    match t
    case ConnectTo(target) =>
      var d := Lookup(m.devices, target);
      Quiet(st, if d.None? then Done(Failed(DeviceNotFound(target))) else ConnectAlloc(d.value))
    case ConnectAlloc(d) =>
      Quiet(st.(nextToken := st.nextToken + 1, connections := st.connections[st.nextToken := d.id]),
            ConnectAnnounce(d, st.nextToken))
    case ConnectAnnounce(d, token) =>
      Stamp(st, OriginOf(m, d), Connected, TICK, Done(Linked(Connection(d.id, m.local, d.spec, d.radio, d.portAuth, token))))
  }

  function DisconnectStep(st: State, t: Task): Next
    requires IsDisconnect(t)
  {
    match t
    case Disconnect(c) =>
      if c.token !in st.connections then Quiet(st, Done(Failed(NotConnected(c.peer))))
      else Quiet(st.(connections := st.connections - {c.token}), DisconnectAnnounce(c))
    case DisconnectAnnounce(c) =>
      Stamp(st, LinkOrigin(c), Disconnected(None), TICK, Done(Unlinked(c.token)))
  }

  function PairStep(m: Config, st: State, d: Device, stage: Stage, r: Response): Next {
    match stage
    case Announce => Stamp(st, OriginOf(m, d), PairingStarted(d.pairingMethod), TICK, Pairing(d, Ask))
    case Ask => Quiet(st, Pairing(d, Answered(d, r)))
    case Refuse(reason, e) => Stamp(st, OriginOf(m, d), PairingFailed(reason), TICK, Done(Failed(e)))
    case Remember => Quiet(st.(paired := st.paired + {d.id}), Pairing(d, Confirming))
    case Confirming => Stamp(st, OriginOf(m, d), PairingCompleted, TICK, Done(Bonded(d.pairingMethod)))
  }

  /** One step of accepting the devices `left`; a refused device does not end the window. */
  function AcceptStep(m: Config, st: State, t: Task, r: Response): Next
    requires t.Accept?
  {
    if t.left == [] then Quiet(st.(clock := st.clock + t.window), Done(BondedAll(t.bonded)))
    else
      var d := t.left[0];
      match t.stage
      case Announce => Stamp(st, OriginOf(m, d), PairingStarted(d.pairingMethod), TICK, t.(stage := Ask))
      case Ask => Quiet(st, t.(stage := Answered(d, r)))
      case Refuse(reason, _) =>
        Stamp(st, OriginOf(m, d), PairingFailed(reason), TICK, Accept(t.left[1..], Announce, t.bonded, t.window))
      case Remember => Quiet(st.(paired := st.paired + {d.id}), t.(stage := Confirming))
      case Confirming =>
        Stamp(st, OriginOf(m, d), PairingCompleted, TICK, Accept(t.left[1..], Announce, t.bonded + [d.id], t.window))
  }

  predicate IsPush(t: Task) {
    t.PushClock? || t.PushAnnounce? || t.PushChunk? || t.PushReport? || t.PushComplete?
  }

  function PushStep(st: State, t: Task): Next
    requires IsPush(t)
  {
    match t
    case PushClock(p) => Quiet(st, PushAnnounce(p.(start := st.clock)))
    case PushAnnounce(p) => Stamp(st, LinkOrigin(p.conn), TransferStarted(p.file.name, p.file.len), TICK, PushChunk(p))
    case PushChunk(p) =>
      var n := NextChunk(p);
      if n == 0 then Quiet(st, PushComplete(p, Max(st.clock - p.start, 0)))
      else if p.dev.failAfter.Some? && p.transferred + n > p.dev.failAfter.value then
        var reason := LinkFailure(p.dev.failAfter.value);
        Stamp(st, LinkOrigin(p.conn), Error(reason), TICK, PushEnded(p, Err(TransferFailed(p.transferred, reason))))
      else
        Stamp(st, LinkOrigin(p.conn), DataChunk(Outbound, n), p.dev.perChunk,
              PushReport(p.(transferred := p.transferred + n, chunks := p.chunks + 1)))
    case PushReport(p) => Stamp(st, LinkOrigin(p.conn), TransferProgress(p.transferred, p.file.len), 0, PushChunk(p))
    case PushComplete(p, duration) =>
      Stamp(st, LinkOrigin(p.conn), TransferCompleted(p.transferred, duration), TICK,
            PushEnded(p, Ok(Receipt(p.file.name, p.transferred, p.chunks, duration))))
  }

  function DiscoverStep(m: Config, st: State, left: seq<Device>, f: Filter, found: seq<DeviceId>): Next {
    if left == [] then Quiet(st, Done(Found(found)))
    else if !Matches(m, f, left[0]) then Quiet(st, DiscoverNext(left[1..], f, found))
    else if f.limit.Some? && |found| >= f.limit.value then Quiet(st, Done(Found(found)))
    else Stamp(st, OriginOf(m, left[0]), DeviceDiscovered(left[0].rssi), TICK,
               DiscoverNext(left[1..], f, found + [left[0].id]))
  }

  predicate IsConnect(t: Task) {
    t.ConnectTo? || t.ConnectAlloc? || t.ConnectAnnounce?
  }

  predicate IsDisconnect(t: Task) {
    t.Disconnect? || t.DisconnectAnnounce?
  }

  /** The first step of an operation that looks its device up or takes a snapshot. */
  function OpenStep(m: Config, st: State, t: Task): Next {
    match t
    case PairWith(target) =>
      var d := Lookup(m.devices, target);
      Quiet(st, if d.None? then Done(Failed(DeviceNotFound(target))) else Pairing(d.value, Announce))
    case AcceptAll(max, window) =>
      Quiet(st, Accept(m.incoming[..if max.Some? then Min(max.value, |m.incoming|) else |m.incoming|], Announce, [], window))
    case PushFile(c, f) =>
      if c.token !in st.connections then Quiet(st, Done(Failed(NotConnected(c.peer))))
      else
        var d := Lookup(m.devices, c.peer);
        Quiet(st, if d.None? then Done(Failed(DeviceNotFound(c.peer))) else PushClock(Push(c, d.value, f, 0, 0, 0)))
    case Discover(f) => Stamp(st, AdapterOrigin(m), DiscoveryStarted, TICK, DiscoverNext(m.devices, f, []))
    case _ => Quiet(st, t)
  }

  /** One step of a task; `r` is what the agent answers if this step asks it. */
  function Step(m: Config, st: State, t: Task, r: Response): Next {
    if IsConnect(t) then ConnectStep(m, st, t)
    else if IsDisconnect(t) then DisconnectStep(st, t)
    else if t.Pairing? then PairStep(m, st, t.dev, t.stage, r)
    else if t.Accept? then AcceptStep(m, st, t, r)
    else if IsPush(t) then PushStep(st, t)
    else if t.DiscoverNext? then DiscoverStep(m, st, t.left, t.filter, t.found)
    else OpenStep(m, st, t)
  }

  // ---------------------------------------------------------------- every task ends

  function StageRank(s: Stage): nat {
    match s
    case Announce => 4
    case Ask => 3
    case Remember => 2
    case Refuse(_, _) => 1
    case Confirming => 1
  }

  /** An upper bound on the steps a task has left. */
  function Rank(m: Config, t: Task): nat {
    match t
    case ConnectTo(_) => 3
    case ConnectAlloc(_) => 2
    case ConnectAnnounce(_, _) => 1
    case Disconnect(_) => 2
    case DisconnectAnnounce(_) => 1
    case PairWith(_) => 5
    case Pairing(_, s) => StageRank(s)
    case AcceptAll(_, _) => 5 * |m.incoming| + 2
    case Accept(left, s, _, _) => if left == [] then 1 else 5 * (|left| - 1) + StageRank(s) + 1
    case PushFile(_, f) => 2 * f.len + 5
    case PushClock(p) => 2 * Max(p.file.len - p.transferred, 0) + 4
    case PushAnnounce(p) => 2 * Max(p.file.len - p.transferred, 0) + 3
    case PushChunk(p) => 2 * Max(p.file.len - p.transferred, 0) + 2
    case PushReport(p) => 2 * Max(p.file.len - p.transferred, 0) + 3
    case PushComplete(_, _) => 1
    case Discover(_) => |m.devices| + 2
    case DiscoverNext(left, _, _) => |left| + 1
    case _ => 0
  }

  lemma PushStepEnds(m: Config, st: State, t: Task)
    requires IsPush(t)
    ensures Rank(m, PushStep(st, t).task) < Rank(m, t)
  {
    hide LinkOrigin, LinkFailure;
  }

  lemma AcceptStepEnds(m: Config, st: State, t: Task, r: Response)
    requires t.Accept?
    ensures Rank(m, AcceptStep(m, st, t, r).task) < Rank(m, t)
  {
    hide OriginOf;
  }

  lemma OpenStepEnds(m: Config, st: State, t: Task)
    requires t.PairWith? || t.AcceptAll? || t.PushFile? || t.Discover?
    ensures Rank(m, OpenStep(m, st, t).task) < Rank(m, t)
  {
    hide Lookup, AdapterOrigin;
  }

  /** Each step brings its task closer to its end, whatever other tasks did to the state. */
  lemma StepEnds(m: Config, st: State, t: Task, r: Response)
    requires !Ended(t)
    ensures Rank(m, Step(m, st, t, r).task) < Rank(m, t)
  {
    hide Lookup, OriginOf, LinkOrigin, Matches, PushStep, AcceptStep, OpenStep;
    if IsPush(t) {
      PushStepEnds(m, st, t);
    } else if t.Accept? {
      AcceptStepEnds(m, st, t, r);
    } else if t.PairWith? || t.AcceptAll? || t.PushFile? || t.Discover? {
      OpenStepEnds(m, st, t);
    }
  }
}
