/** What a mock operation comes to when it runs on its own: closed forms for pushing, accepting
    pairings and discovering. */
module MockRuns {
  import opened Bytes
  import opened Events
  import opened Sums
  import opened Metrics
  import opened Mock
  import opened MockSystem
  import opened MockBackend

  // ---------------------------------------------------------------- one push

  /** Whether a device's script lets a file of this length through. */
  predicate LetsThrough(d: Device, len: nat) {
    d.failAfter.Some? ==> len <= d.failAfter.value
  }

  /** Chunks that go out before a push ends. */
  function ChunksSent(d: Device, len: nat): nat {
    var c := Max(d.chunkSize, 1);
    if LetsThrough(d, len) then (len + c - 1) / c else d.failAfter.value / c
  }

  lemma ChunkSizeIs(d: Device)
    ensures ChunkSize(d) == Max(d.chunkSize, 1)
  {
  }

  /** The events of chunks `j` up to `k`: each followed by the bytes sent so far. */
  function ChunkKinds(c: nat, len: nat, j: nat, k: nat): seq<Kind>
    decreases k - j
  {
    if j >= k then []
    else [DataChunk(Outbound, Max(Min(c, len - j * c), 0)), TransferProgress(Min((j + 1) * c, len), len)]
         + ChunkKinds(c, len, j + 1, k)
  }

  function LastKind(d: Device, len: nat, duration: nat): Kind {
    if LetsThrough(d, len) then TransferCompleted(len, duration) else Error(LinkFailure(d.failAfter.value))
  }

  lemma KindsLater(es: seq<Event>, e: Event)
    ensures Kinds(es + [e]) == Kinds(es) + [e.kind]
  {
  }

  /** The state of a push part way through, on its own. */
  ghost predicate Pushed(m: Config, st: State, p: Push, es: seq<Event>, ran: Ran) {
    var d, len := p.dev, p.file.len;
    var k := ChunksSent(d, len);
    var duration := st.clock + (k - p.chunks) * d.perChunk - p.start;
    && p.chunks <= k && duration >= 0
    && ran.task.PushEnded? && EndsAsScripted(ran.task.p, ran.task.result) && ran.task.p.dev == d && ran.task.p.file == p.file
    && Kinds(ran.events) == Kinds(es) + ChunkKinds(ChunkSize(d), len, p.chunks, k) + [LastKind(d, len, duration)]
    && (ran.task.result.Ok? ==> ran.task.result.value.duration == duration)
    && ran.st == st.(seq_ := st.seq_ + 1 + 2 * (k - p.chunks), clock := st.clock + (k - p.chunks) * d.perChunk + TICK)
  }

  lemma ChunksLeft(p: Push)
    requires OnCourse(p)
    ensures p.chunks <= ChunksSent(p.dev, p.file.len)
    ensures p.chunks == ChunksSent(p.dev, p.file.len)
       <==> NextChunk(p) == 0 || (p.dev.failAfter.Some? && p.transferred + NextChunk(p) > p.dev.failAfter.value)
    ensures NextChunk(p) == 0 ==> LetsThrough(p.dev, p.file.len)
    ensures NextChunk(p) > 0 ==> p.transferred == p.chunks * ChunkSize(p.dev)
    ensures NextChunk(p) > 0 ==> p.transferred + NextChunk(p) == Min((p.chunks + 1) * ChunkSize(p.dev), p.file.len)
    ensures NextChunk(p) > 0 && p.chunks == ChunksSent(p.dev, p.file.len) ==> !LetsThrough(p.dev, p.file.len)
  {
    hide LinkFailure;
    var c, len := ChunkSize(p.dev), p.file.len;
    if NextChunk(p) == 0 {
      NothingLeft(p);
      AllChunks(p, 0);
    } else {
      ChunkStep(p);
      assert (p.chunks + 1) * c == p.chunks * c + c;
      if p.dev.failAfter.Some? && p.transferred + NextChunk(p) > p.dev.failAfter.value {
        QuotientIs(p.dev.failAfter.value, c, p.chunks);
      } else if LetsThrough(p.dev, len) {
        CountedUp(len + c - 1, c, p.chunks + 1);
      } else {
        CountedUp(p.dev.failAfter.value, c, p.chunks + 1);
      }
    }
  }

  lemma CountedUp(a: nat, d: nat, q: nat)
    requires d > 0 && q * d <= a
    ensures q <= a / d
  {
    var r := a / d;
    assert a < r * d + d;
    assert r < q ==> (r + 1) * d <= q * d;
  }

  lemma KindsAssoc(es: seq<Event>, a: Event, b: Event, rest: seq<Kind>, last: Kind)
    ensures Kinds(es + [a] + [b]) + rest + [last] == Kinds(es) + ([a.kind, b.kind] + rest) + [last]
  {
    KindsLater(es, a);
    KindsLater(es + [a], b);
  }

  /** The last steps of a push whose chunks have all gone out. */
  lemma PushEnds(m: Config, agent: Agent, st: State, p: Push, es: seq<Event>)
    requires OnCourse(p) && p.start <= st.clock && p.chunks == ChunksSent(p.dev, p.file.len)
    ensures Pushed(m, st, p, es, Alone(m, agent, st, PushChunk(p), es))
  {
    hide Alone, Lookup, LinkOrigin, LinkFailure, ConnectStep, DisconnectStep, PairStep, AcceptStep, DiscoverStep,
         NextChunk, ChunksSent, ChunkSize, Kinds, OnCourse, LetsThrough, EndsAsScripted;
    AloneEnd(m, agent);
    ChunksLeft(p);
    AloneStep(m, agent, st, PushChunk(p), es);
    var origin := LinkOrigin(p.conn);
    if NextChunk(p) == 0 {
      var duration := st.clock - p.start;
      AloneStep(m, agent, st, PushComplete(p, duration), es);
      NothingLeft(p);
      AllChunks(p, duration);
      KindsLater(es, Event(st.seq_, st.clock, origin, TransferCompleted(p.transferred, duration)));
    } else {
      LimitReached(p);
      KindsLater(es, Event(st.seq_, st.clock, origin, Error(LinkFailure(p.dev.failAfter.value))));
    }
    NoChunks(ChunkSize(p.dev), p.file.len, p.chunks, ChunksSent(p.dev, p.file.len), es);
  }

  lemma NoChunks(c: nat, len: nat, j: nat, k: nat, es: seq<Event>)
    requires j >= k
    ensures Kinds(es) + ChunkKinds(c, len, j, k) == Kinds(es)
  {
  }

  lemma MoreChunks(c: nat, len: nat, j: nat, k: nat)
    requires j < k && c >= 1 && j * c <= len
    ensures ChunkKinds(c, len, j, k)
         == [DataChunk(Outbound, Min(c, len - j * c)), TransferProgress(Min((j + 1) * c, len), len)]
            + ChunkKinds(c, len, j + 1, k)
  {
  }

  lemma OneMoreLatency(k: nat, j: nat, latency: nat)
    requires j < k
    ensures (k - j) * latency == latency + (k - (j + 1)) * latency
  {
    assert (k - j) * latency == (k - j - 1) * latency + latency;
  }

  /** A push on its own from any point on. */
  lemma {:induction false} PushAlone(m: Config, agent: Agent, st: State, p: Push, es: seq<Event>)
    requires OnCourse(p) && p.start <= st.clock
    ensures Pushed(m, st, p, es, Alone(m, agent, st, PushChunk(p), es))
    decreases ChunksSent(p.dev, p.file.len) - p.chunks
  {
    hide Alone, Lookup, LinkOrigin, LinkFailure, ConnectStep, DisconnectStep, PairStep, AcceptStep, DiscoverStep,
         NextChunk, ChunksSent, Kinds, OnCourse, LetsThrough, EndsAsScripted, ChunkKinds, Pushed, ChunkSize;
    ChunksLeft(p);
    var k := ChunksSent(p.dev, p.file.len);
    if p.chunks == k {
      PushEnds(m, agent, st, p, es);
    } else {
      var n := NextChunk(p);
      var p' := p.(transferred := p.transferred + n, chunks := p.chunks + 1);
      ChunkStep(p);
      AloneStep(m, agent, st, PushChunk(p), es);
      var chunk := Event(st.seq_, st.clock, LinkOrigin(p.conn), DataChunk(Outbound, n));
      var st1 := st.(seq_ := st.seq_ + 1, clock := st.clock + p.dev.perChunk);
      AloneStep(m, agent, st1, PushReport(p'), es + [chunk]);
      var report := Event(st1.seq_, st1.clock, LinkOrigin(p.conn), TransferProgress(p'.transferred, p.file.len));
      var st2 := st1.(seq_ := st1.seq_ + 1);
      PushAlone(m, agent, st2, p', es + [chunk] + [report]);
      PushedStep(m, st, p, es, n, chunk, report, Alone(m, agent, st2, PushChunk(p'), es + [chunk] + [report]));
    }
  }

  lemma PushedStep(m: Config, st: State, p: Push, es: seq<Event>, n: nat, chunk: Event, report: Event, ran: Ran)
    requires OnCourse(p) && n == NextChunk(p) > 0 && p.start <= st.clock && p.chunks < ChunksSent(p.dev, p.file.len)
    requires chunk.kind == DataChunk(Outbound, n) && report.kind == TransferProgress(p.transferred + n, p.file.len)
    requires Pushed(m, st.(seq_ := st.seq_ + 2, clock := st.clock + p.dev.perChunk),
                    p.(transferred := p.transferred + n, chunks := p.chunks + 1), es + [chunk] + [report], ran)
    ensures Pushed(m, st, p, es, ran)
  {
    hide LinkFailure, OnCourse, LetsThrough, EndsAsScripted, ChunkKinds, ChunksSent, Kinds, ChunkSize, NextChunk, LastKind;
    var c, len, k := ChunkSize(p.dev), p.file.len, ChunksSent(p.dev, p.file.len);
    ChunksLeft(p);
    ChunkStep(p);
    NextChunkIs(p);
    MoreChunks(c, len, p.chunks, k);
    OneMoreLatency(k, p.chunks, p.dev.perChunk);
    var duration := st.clock + (k - p.chunks) * p.dev.perChunk - p.start;
    KindsAssoc(es, chunk, report, ChunkKinds(c, len, p.chunks + 1, k), LastKind(p.dev, len, duration));
  }

  lemma NextChunkIs(p: Push)
    requires OnCourse(p) && NextChunk(p) > 0
    ensures p.transferred <= p.file.len && NextChunk(p) == Min(ChunkSize(p.dev), p.file.len - p.transferred)
  {
  }

  // ---------------------------------------------------------------- whole operations

  /** A whole push over a live connection to a known device, with nothing running beside it: the
      exact events, the outcome, and the time it took. Nothing but the log and the clock changes. */
  lemma PushClosedForm(m: Config, agent: Agent, st: State, conn: Connection, file: File, es: seq<Event>)
    requires conn.token in st.connections && Lookup(m.devices, conn.peer).Some?
    ensures var d := Lookup(m.devices, conn.peer).value;
            var ran := Alone(m, agent, st, Task.PushFile(conn, file), es);
            var k := ChunksSent(d, file.len);
            var duration := 1_000_000 + k * d.perChunk;
            && ran.task.PushEnded? && EndsAsScripted(ran.task.p, ran.task.result) && ran.task.p.dev == d
            && ran.task.p.file == file
            && Kinds(ran.events) == Kinds(es) + [TransferStarted(file.name, file.len)]
                                    + ChunkKinds(Max(d.chunkSize, 1), file.len, 0, k) + [LastKind(d, file.len, duration)]
            && (ran.task.result.Ok? ==> ran.task.result.value.duration == duration)
            && ran.st == st.(seq_ := st.seq_ + 2 + 2 * k, clock := st.clock + duration + 1_000_000)
  {
    hide Alone, Lookup, LinkOrigin, LinkFailure, ConnectStep, DisconnectStep, PairStep, AcceptStep, DiscoverStep,
         ChunksSent, Kinds, OnCourse, LetsThrough, EndsAsScripted, ChunkKinds, ChunkSize, LastKind, NextChunk;
    var d := Lookup(m.devices, conn.peer).value;
    var t := Task.PushFile(conn, file);
    var p := Push(conn, d, file, 0, 0, 0);
    var q := p.(start := st.clock);
    AloneStep(m, agent, st, t, es);
    AloneStep(m, agent, st, PushClock(p), es);
    AloneStep(m, agent, st, PushAnnounce(q), es);
    var started := Event(st.seq_, st.clock, LinkOrigin(conn), TransferStarted(file.name, file.len));
    var st1 := st.(seq_ := st.seq_ + 1, clock := st.clock + TICK);
    ChunkSizeIs(d);
    FreshOnCourse(t);
    StartDoesNotMatter(p, st.clock);
    PushAlone(m, agent, st1, q, es + [started]);
    KindsLater(es, started);
  }

  // ---------------------------------------------------------------- pairings, outbound and inbound

  /** Whether the agent turns a pairing down: it does by confirming with no or by cancelling. */
  predicate TurnsDown(agent: Agent, d: Device) {
    match agent(RequestFor(d.pairingMethod))
    case Confirm(yes) => !yes
    case Cancel => true
    case Pin(_) => false
    case Passkey(_) => false
    case Acknowledged => false
  }

  /** The reason a pairing fails for, if it does: the agent's objection first, then the script's. */
  function Objection(agent: Agent, d: Device): Option<string> {
    if TurnsDown(agent, d) then Some("declined by pairing agent") else d.pairingFailure
  }

  /** The devices that end up bonded. */
  predicate Acceptable(agent: Agent, d: Device) {
    Objection(agent, d).None?
  }

  /** The prompt for each method, and what the mock takes its answers for. */
  lemma PromptsAndAnswers(agent: Agent, d: Device)
    ensures RequestFor(d.pairingMethod) == match d.pairingMethod
                                           case JustWorks => ConfirmJustWorks
                                           case OutOfBand => ConfirmJustWorks
                                           case NumericComparison => ConfirmPasskey(123456)
                                           case PasskeyDisplay => DisplayPasskey(123456)
                                           case PinCode => RequestPinCode
                                           case PasskeyEntry => RequestPasskey
    ensures Rejects(agent(RequestFor(d.pairingMethod))) <==> TurnsDown(agent, d)
    ensures Answered(d, agent(RequestFor(d.pairingMethod)))
         == if TurnsDown(agent, d) then
              Refuse("declined by pairing agent", PairingRejected("declined by pairing agent"))
            else match d.pairingFailure
              case Some(reason) => Refuse(reason, PairingFailure(reason))
              case None => Remember
  {
  }

  function AcceptedIds(agent: Agent, ds: seq<Device>): seq<DeviceId> {
    if ds == [] then []
    else (if Acceptable(agent, ds[0]) then [ds[0].id] else []) + AcceptedIds(agent, ds[1..])
  }

  /** The two events of one pairing: numbers, times, the device's origin, and the outcome. */
  function PairingEvents(m: Config, agent: Agent, d: Device, n: nat, at: nat): seq<Event> {
    var origin := Origin(m.local, d.id, d.spec, d.radio, d.portAuth);
    var end := match Objection(agent, d) case None => PairingCompleted case Some(reason) => PairingFailed(reason);
    [Event(n, at, origin, PairingStarted(d.pairingMethod)), Event(n + 1, at + 1_000_000, origin, end)]
  }

  /** The events of an inbound window. */
  function AcceptEvents(m: Config, agent: Agent, ds: seq<Device>, n: nat, at: nat): seq<Event> {
    if ds == [] then []
    else PairingEvents(m, agent, ds[0], n, at) + AcceptEvents(m, agent, ds[1..], n + 2, at + 2_000_000)
  }

  lemma TwoMore(es: seq<Event>, a: Event, b: Event)
    ensures es + [a] + [b] == es + [a, b]
  {
  }

  /** One inbound device takes two ticks and is bonded when acceptable. */
  lemma AcceptOneAlone(m: Config, agent: Agent, st: State, left: seq<Device>, bonded: seq<DeviceId>,
                       window: nat, es: seq<Event>) returns (st': State, es': seq<Event>)
    requires left != []
    ensures var ok := Acceptable(agent, left[0]);
            && Alone(m, agent, st, Accept(left, Announce, bonded, window), es)
            == Alone(m, agent, st', Accept(left[1..], Announce, if ok then bonded + [left[0].id] else bonded, window), es')
            && es' == es + PairingEvents(m, agent, left[0], st.seq_, st.clock)
            && st' == st.(seq_ := st.seq_ + 2, clock := st.clock + 2_000_000,
                          paired := if ok then st.paired + {left[0].id} else st.paired)
  {
    hide Alone, RequestFor, Lookup, ConnectStep, DisconnectStep, PairStep, PushStep, DiscoverStep, Rejects, Answered;
    var d := left[0];
    var t := Accept(left, Announce, bonded, window);
    PromptsAndAnswers(agent, d);
    AloneStep(m, agent, st, t, es);
    var n := Step(m, st, t, Reply(agent, t));
    st', es' := n.st, Later(es, n.event);
    var first := n.event.value;
    var t2 := Accept(left, Ask, bonded, window);
    AloneStep(m, agent, st', t2, es');
    var t3 := Accept(left, Answered(d, Reply(agent, t2)), bonded, window);
    AloneStep(m, agent, st', t3, es');
    n := Step(m, st', t3, Reply(agent, t3));
    st', es' := n.st, Later(es', n.event);
    if Acceptable(agent, d) {
      AloneStep(m, agent, st', n.task, es');
      n := Step(m, st', n.task, Reply(agent, n.task));
      st', es' := n.st, Later(es', n.event);
    }
    TwoMore(es, first, n.event.value);
  }

  lemma AcceptNobody(m: Config, agent: Agent, st: State, bonded: seq<DeviceId>, window: nat, es: seq<Event>)
    ensures Alone(m, agent, st, Accept([], Announce, bonded, window), es)
         == Ran(st.(clock := st.clock + window), Done(BondedAll(bonded)), es)
  {
    hide Alone, ConnectStep, DisconnectStep, PairStep, PushStep, DiscoverStep;
    AloneStep(m, agent, st, Accept([], Announce, bonded, window), es);
    AloneEnd(m, agent);
  }

  lemma {:induction false} AcceptAlone(m: Config, agent: Agent, st: State, left: seq<Device>, bonded: seq<DeviceId>,
                                       window: nat, es: seq<Event>)
    ensures var ran := Alone(m, agent, st, Accept(left, Announce, bonded, window), es);
            && ran.task == Done(BondedAll(bonded + AcceptedIds(agent, left)))
            && ran.events == es + AcceptEvents(m, agent, left, st.seq_, st.clock)
            && ran.st == st.(seq_ := st.seq_ + 2 * |left|, clock := st.clock + 2_000_000 * |left| + window,
                             paired := st.paired + (set id | id in AcceptedIds(agent, left)))
    decreases |left|
  {
    hide Alone, Acceptable, AcceptedIds, PairingEvents;
    if left == [] {
      AcceptNobody(m, agent, st, bonded, window, es);
      NobodyAccepted(agent);
      assert bonded + AcceptedIds(agent, left) == bonded;
      assert es + AcceptEvents(m, agent, left, st.seq_, st.clock) == es;
    } else {
      var st', es' := AcceptOneAlone(m, agent, st, left, bonded, window, es);
      var rest := AcceptedIds(agent, left[1..]);
      var ok := Acceptable(agent, left[0]);
      AcceptedCons(agent, left);
      AcceptAlone(m, agent, st', left[1..], if ok then bonded + [left[0].id] else bonded, window, es');
      assert bonded + ([left[0].id] + rest) == bonded + [left[0].id] + rest;
      assert bonded + ([] + rest) == bonded + rest;
      var pair := PairingEvents(m, agent, left[0], st.seq_, st.clock);
      var more := AcceptEvents(m, agent, left[1..], st.seq_ + 2, st.clock + 2_000_000);
      assert es + (pair + more) == es + pair + more;
    }
  }

  /** `accept_pairings` bonds the acceptable ones among the first `max` inbound devices: the cap is
      on the devices consulted. */
  lemma AcceptClosedForm(m: Config, agent: Agent, st: State, max: Option<nat>, window: nat, es: seq<Event>)
    ensures var n := if max.Some? then Min(max.value, |m.incoming|) else |m.incoming|;
            var ran := Alone(m, agent, st, AcceptAll(max, window), es);
            && ran.task == Done(BondedAll(AcceptedIds(agent, m.incoming[..n])))
            && ran.events == es + AcceptEvents(m, agent, m.incoming[..n], st.seq_, st.clock)
            && ran.st == st.(seq_ := st.seq_ + 2 * n, clock := st.clock + 2_000_000 * n + window,
                             paired := st.paired + (set id | id in AcceptedIds(agent, m.incoming[..n])))
  {
    hide Alone, AcceptedIds, Acceptable, AcceptEvents;
    var n := if max.Some? then Min(max.value, |m.incoming|) else |m.incoming|;
    AloneStep(m, agent, st, AcceptAll(max, window), es);
    AcceptAlone(m, agent, st, m.incoming[..n], [], window, es);
    assert [] + AcceptedIds(agent, m.incoming[..n]) == AcceptedIds(agent, m.incoming[..n]);
  }

  /** What the documentation of `max_devices` describes instead: stop once that many have bonded. */
  function StopAfter(agent: Agent, ds: seq<Device>, max: nat): seq<DeviceId> {
    if ds == [] || max == 0 then []
    else if Acceptable(agent, ds[0]) then [ds[0].id] + StopAfter(agent, ds[1..], max - 1)
    else StopAfter(agent, ds[1..], max)
  }

  predicate NoneAcceptable(agent: Agent, ds: seq<Device>) {
    forall d <- ds :: !Acceptable(agent, d)
  }

  predicate AllAcceptable(agent: Agent, ds: seq<Device>) {
    forall d <- ds :: Acceptable(agent, d)
  }

  lemma {:induction false} StopAfterLength(agent: Agent, ds: seq<Device>, max: nat)
    ensures |StopAfter(agent, ds, max)| == Min(max, |AcceptedIds(agent, ds)|)
    ensures AcceptedIds(agent, ds) == [] <==> NoneAcceptable(agent, ds)
  {
    hide Acceptable;
    if ds != [] {
      StopAfterLength(agent, ds[1..], if Acceptable(agent, ds[0]) && max > 0 then max - 1 else max);
      assert forall d :: d in ds <==> d == ds[0] || d in ds[1..];
    }
  }

  function AcceptedHead(agent: Agent, d: Device): seq<DeviceId> {
    if Acceptable(agent, d) then [d.id] else []
  }

  lemma AcceptedCons(agent: Agent, ds: seq<Device>)
    requires ds != []
    ensures AcceptedIds(agent, ds) == AcceptedHead(agent, ds[0]) + AcceptedIds(agent, ds[1..])
  {
    hide Acceptable;
  }

  lemma NobodyAccepted(agent: Agent)
    ensures AcceptedIds(agent, []) == []
  {
  }

  lemma {:induction false} AcceptedSplit(agent: Agent, a: seq<Device>, b: seq<Device>)
    ensures AcceptedIds(agent, a + b) == AcceptedIds(agent, a) + AcceptedIds(agent, b)
  {
    hide Acceptable, AcceptedIds, AcceptedHead;
    if a == [] {
      assert a + b == b;
      NobodyAccepted(agent);
    } else {
      assert (a + b)[1..] == a[1..] + b;
      AcceptedSplit(agent, a[1..], b);
      AcceptedCons(agent, a);
      AcceptedCons(agent, a + b);
      var head := AcceptedHead(agent, a[0]);
      assert head + (AcceptedIds(agent, a[1..]) + AcceptedIds(agent, b)) == head + AcceptedIds(agent, a[1..]) + AcceptedIds(agent, b);
    }
  }

  lemma {:induction false} AcceptedCount(agent: Agent, ds: seq<Device>)
    ensures |AcceptedIds(agent, ds)| <= |ds|
    ensures |AcceptedIds(agent, ds)| == |ds| <==> AllAcceptable(agent, ds)
  {
    hide Acceptable;
    if ds != [] {
      AcceptedCount(agent, ds[1..]);
      assert forall d :: d in ds <==> d == ds[0] || d in ds[1..];
    }
  }

  lemma {:induction false} StopAfterPrefix(agent: Agent, a: seq<Device>, b: seq<Device>, max: nat)
    requires |AcceptedIds(agent, a)| <= max
    ensures StopAfter(agent, a + b, max) == AcceptedIds(agent, a) + StopAfter(agent, b, max - |AcceptedIds(agent, a)|)
  {
    hide Acceptable;
    if a == [] {
      assert a + b == b;
    } else {
      assert (a + b)[1..] == a[1..] + b;
      StopAfterPrefix(agent, a[1..], b, if Acceptable(agent, a[0]) then max - 1 else max);
    }
  }

  /** The devices a cap lets the mock consult. */
  function Consulted(ds: seq<Device>, max: nat): seq<Device> {
    ds[..Min(max, |ds|)]
  }

  /** The mock does what the documentation of `max_devices` says exactly when the devices it consults
      are all acceptable or none of the later ones is. */
  lemma MaxDevicesAsDocumentedIff(agent: Agent, ds: seq<Device>, max: nat)
    ensures AcceptedIds(agent, Consulted(ds, max)) == StopAfter(agent, ds, max)
       <==> AllAcceptable(agent, Consulted(ds, max)) || NoneAcceptable(agent, ds[Min(max, |ds|)..])
  {
    hide Acceptable, StopAfter, AcceptedIds, AllAcceptable, NoneAcceptable;
    var a, b := Consulted(ds, max), ds[Min(max, |ds|)..];
    assert ds == a + b;
    AcceptedSplit(agent, a, b);
    AcceptedCount(agent, a);
    StopAfterPrefix(agent, a, b, max);
    StopAfterLength(agent, b, max - |AcceptedIds(agent, a)|);
    NobodyLeft(agent, b);
  }

  lemma NobodyLeft(agent: Agent, ds: seq<Device>)
    ensures ds == [] ==> NoneAcceptable(agent, ds)
  {
  }

  /** A cap of one, a device that is declined and one that is not: the mock bonds nobody, where the
      documentation promises the second. */
  lemma MaxDevicesExample(d: DeviceId, e: DeviceId)
    ensures var first := Device(d, None, SpecContext("5.0", BrEdr), "", "", None, PinCode, None, 1, 0, None);
            var second := first.(id := e, pairingMethod := JustWorks);
            var agent: Agent := (request: Request) => if request.RequestPinCode? then Cancel else Confirm(true);
            && AcceptedIds(agent, Consulted([first, second], 1)) == []
            && StopAfter(agent, [first, second], 1) == [e]
  {
    var first := Device(d, None, SpecContext("5.0", BrEdr), "", "", None, PinCode, None, 1, 0, None);
    var second := first.(id := e, pairingMethod := JustWorks);
    var agent: Agent := (request: Request) => if request.RequestPinCode? then Cancel else Confirm(true);
    assert [first, second][..1] == [first] && [first][1..] == [] && [first, second][1..] == [second];
    assert !Acceptable(agent, first) && Acceptable(agent, second);
    assert StopAfter(agent, [second], 1) == [e] + StopAfter(agent, [second][1..], 0);
  }

  // ---------------------------------------------------------------- payload as documented

  /** The events of a push that completes in one chunk. */
  function OneChunk(len: nat, duration: nat): seq<Kind> {
    [TransferStarted("f", len), DataChunk(Outbound, len), TransferProgress(len, len), TransferCompleted(len, duration)]
  }

  /** A push of ten bytes in one chunk that completes. */
  lemma TenBytesPushed(m: Config, agent: Agent, st: State, conn: Connection)
    requires conn.token in st.connections && Lookup(m.devices, conn.peer).Some?
    requires Lookup(m.devices, conn.peer).value.chunkSize == 10 && Lookup(m.devices, conn.peer).value.failAfter.None?
    ensures var ran := Alone(m, agent, st, Task.PushFile(conn, File("f", 10)), []);
            var duration := TICK + Lookup(m.devices, conn.peer).value.perChunk;
            Kinds(ran.events) == OneChunk(10, duration)
  {
    hide Alone, Lookup, LinkFailure, EndsAsScripted;
    PushClosedForm(m, agent, st, conn, File("f", 10), []);
    assert ChunkKinds(10, 10, 1, 1) == [];
    assert ChunkKinds(10, 10, 0, 1) == [DataChunk(Outbound, 10), TransferProgress(10, 10)];
    assert Kinds([]) == [];
  }

  lemma FourEvents(es: seq<Event>, len: nat, duration: nat)
    requires Kinds(es) == OneChunk(len, duration)
    ensures ChunkBytes(Kinds(es)) == len && Sum(es, CompletedWeight) == len
  {
    var ks := Kinds(es);
    assert |es| == |ks| && forall i :: 0 <= i < 4 ==> es[i].kind == ks[i];
    assert ks[1..][1..][1..] == [ks[3]] && [ks[3]][1..] == [];
    assert es[1..][1..][1..] == [es[3]];
    SumOne(es[3], CompletedWeight);
    assert Sum(es[1..][1..], CompletedWeight) == len && Sum(es[1..], CompletedWeight) == len;
    ChunksOne(ks[3]);
    assert ChunkBytes(ks[1..][1..]) == 0;
    assert ChunkBytes(ks[1..]) == len;
  }

  /** One push of ten bytes: the analyzer counts ten, the documentation of `payload_bytes` twenty. */
  lemma DocumentedExample(agent: Agent)
    ensures var d := Device(DeviceId([1, 2, 3, 4, 5, 6], Public), None, SpecContext("5.0", BrEdr), "", "", None, JustWorks, None, 10, 0, None);
            var m := Config("", d.spec, "", "", [d], [], s => s);
            var st := FRESH.(nextToken := 2, connections := map[1 := d.id]);
            var ran := Alone(m, agent, st, Task.PushFile(Connection(d.id, "", d.spec, "", "", 1), File("f", 10)), []);
            SummaryOf(ran.events).bytes == 10 && Sum(ran.events, DocumentedWeight) == 20
  {
    hide Alone, Sum, SummaryOf, DocumentedWeight, CompletedWeight, Kinds, ChunkBytes;
    var d := Device(DeviceId([1, 2, 3, 4, 5, 6], Public), None, SpecContext("5.0", BrEdr), "", "", None, JustWorks, None, 10, 0, None);
    var m := Config("", d.spec, "", "", [d], [], s => s);
    var st := FRESH.(nextToken := 2, connections := map[1 := d.id]);
    var conn := Connection(d.id, "", d.spec, "", "", 1);
    var es := Alone(m, agent, st, Task.PushFile(conn, File("f", 10)), []).events;
    TenBytesPushed(m, agent, st, conn);
    FourEvents(es, 10, TICK);
    SummaryDescribes(es);
    DocumentedSum(es);
  }

  /** A pairing with nothing beside it: exactly two events, two milliseconds, and the paired set grows by
      the target exactly when neither the agent nor the device's script objects. The agent's objection
      takes precedence and is final. */
  lemma PairClosedForm(m: Config, agent: Agent, st: State, target: DeviceId, es: seq<Event>)
    ensures var dev := Lookup(m.devices, target);
            var ran := Alone(m, agent, st, PairWith(target), es);
            if dev.None? then ran == Ran(st, Done(Failed(DeviceNotFound(target))), es)
            else ran == Ran(Paired(st, agent, dev.value), Done(PairingOutcome(agent, dev.value)),
                            es + PairingEvents(m, agent, dev.value, st.seq_, st.clock))
  {
    hide Alone, RequestFor, Lookup, ConnectStep, DisconnectStep, AcceptStep, PushStep, DiscoverStep;
    AloneStep(m, agent, st, PairWith(target), es);
    AloneEnd(m, agent);
    var dev := Lookup(m.devices, target);
    if dev.Some? {
      PairingAlone(m, agent, st, dev.value, es);
    }
  }

  function Paired(st: State, agent: Agent, d: Device): State {
    st.(seq_ := st.seq_ + 2, clock := st.clock + 2_000_000,
        paired := if Objection(agent, d).None? then st.paired + {d.id} else st.paired)
  }

  function PairingOutcome(agent: Agent, d: Device): Outcome {
    if TurnsDown(agent, d) then Failed(PairingRejected("declined by pairing agent"))
    else match d.pairingFailure
      case Some(reason) => Failed(PairingFailure(reason))
      case None => Bonded(d.pairingMethod)
  }

  /** The same for a device already looked up. */
  lemma PairingAlone(m: Config, agent: Agent, st: State, d: Device, es: seq<Event>)
    ensures Alone(m, agent, st, Pairing(d, Announce), es)
         == Ran(Paired(st, agent, d), Done(PairingOutcome(agent, d)), es + PairingEvents(m, agent, d, st.seq_, st.clock))
  {
    hide Alone, RequestFor, ConnectStep, DisconnectStep, AcceptStep, PushStep, DiscoverStep, Rejects, Answered;
    PromptsAndAnswers(agent, d);
    AloneEnd(m, agent);
    var t := Pairing(d, Announce);
    AloneStep(m, agent, st, t, es);
    var n := Step(m, st, t, Reply(agent, t));
    var st1, es1 := n.st, Later(es, n.event);
    AloneStep(m, agent, st1, Pairing(d, Ask), es1);
    var stage := Answered(d, agent(RequestFor(d.pairingMethod)));
    AloneStep(m, agent, st1, Pairing(d, stage), es1);
    var n3 := Step(m, st1, Pairing(d, stage), Reply(agent, t));
    if stage.Remember? {
      AloneStep(m, agent, n3.st, Pairing(d, Confirming), es1);
      var n4 := Step(m, n3.st, Pairing(d, Confirming), Reply(agent, t));
      TwoMore(es, n.event.value, n4.event.value);
    } else {
      TwoMore(es, n.event.value, n3.event.value);
    }
  }

  /** Answer by answer: confirming with no and cancelling each give a rejection, a failed event and an
      unchanged paired set; every other answer leaves the outcome to the device's script. */
  lemma PairByAnswer(m: Config, agent: Agent, st: State, d: Device, es: seq<Event>)
    requires Lookup(m.devices, d.id) == Some(d)
    ensures var ran := Alone(m, agent, st, PairWith(d.id), es);
            var answer := agent(RequestFor(d.pairingMethod));
            && |ran.events| == |es| + 2 && ran.events[|es|].kind == PairingStarted(d.pairingMethod)
            && (answer == Confirm(false) || answer == Cancel ==>
                  && ran.task == Done(Failed(PairingRejected("declined by pairing agent")))
                  && ran.events[|es| + 1].kind == PairingFailed("declined by pairing agent") && ran.st.paired == st.paired)
            && (answer == Confirm(true) || answer.Pin? || answer.Passkey? || answer == Acknowledged ==>
                  if d.pairingFailure.None? then
                    && ran.task == Done(Bonded(d.pairingMethod))
                    && ran.events[|es| + 1].kind == PairingCompleted && ran.st.paired == st.paired + {d.id}
                  else
                    && ran.task == Done(Failed(PairingFailure(d.pairingFailure.value)))
                    && ran.events[|es| + 1].kind == PairingFailed(d.pairingFailure.value) && ran.st.paired == st.paired)
  {
    hide Alone, RequestFor, Lookup;
    PairClosedForm(m, agent, st, d.id, es);
  }

  /** And so for each inbound device consulted. */
  lemma AcceptByAnswer(m: Config, agent: Agent, d: Device, n: nat, at: nat)
    ensures var answer := agent(RequestFor(d.pairingMethod));
            var end := PairingEvents(m, agent, d, n, at)[1].kind;
            && (answer == Confirm(false) || answer == Cancel ==>
                  !Acceptable(agent, d) && end == PairingFailed("declined by pairing agent"))
            && (answer == Confirm(true) || answer.Pin? || answer.Passkey? || answer == Acknowledged ==>
                  && (Acceptable(agent, d) <==> d.pairingFailure.None?)
                  && end == if d.pairingFailure.None? then PairingCompleted else PairingFailed(d.pairingFailure.value))
  {
    hide RequestFor;
  }

  // ---------------------------------------------------------------- links

  /** The device a target stands for is the first scripted one with its id. */
  lemma {:induction false} LookupIs(ds: seq<Device>, id: DeviceId)
    ensures Lookup(ds, id).None? <==> forall d <- ds :: d.id != id
    ensures forall k :: 0 <= k < |ds| && ds[k].id == id && (forall i :: 0 <= i < k ==> ds[i].id != id) ==>
              Lookup(ds, id) == Some(ds[k])
  {
    if ds != [] {
      LookupIs(ds[1..], id);
      assert ds == [ds[0]] + ds[1..];
      forall k | 0 < k < |ds| && ds[k].id == id && (forall i :: 0 <= i < k ==> ds[i].id != id)
        ensures Lookup(ds, id) == Some(ds[k])
      {
        assert ds[0].id != id;
        assert ds[1..][k - 1] == ds[k];
      }
    }
  }

  /** Connecting: an unknown target changes nothing; a known one gets the next token, a live link under
      it, and a connection that carries the context of the link. */
  lemma ConnectClosedForm(m: Config, agent: Agent, st: State, target: DeviceId, es: seq<Event>)
    ensures var dev := Lookup(m.devices, target);
            var ran := Alone(m, agent, st, ConnectTo(target), es);
            if dev.None? then ran == Ran(st, Done(Failed(DeviceNotFound(target))), es)
            else
              var d := dev.value;
              var event := Event(st.seq_, st.clock, Origin(m.local, target, d.spec, d.radio, d.portAuth), Connected);
              ran == Ran(st.(seq_ := st.seq_ + 1, clock := st.clock + 1_000_000, nextToken := st.nextToken + 1,
                             connections := st.connections[st.nextToken := target]),
                         Done(Linked(Connection(target, m.local, d.spec, d.radio, d.portAuth, st.nextToken))), es + [event])
  {
    hide Alone, Lookup, DisconnectStep, PairStep, AcceptStep, PushStep, DiscoverStep;
    AloneEnd(m, agent);
    AloneStep(m, agent, st, ConnectTo(target), es);
    var dev := Lookup(m.devices, target);
    if dev.Some? {
      AloneStep(m, agent, st, ConnectAlloc(dev.value), es);
      var st1 := st.(nextToken := st.nextToken + 1, connections := st.connections[st.nextToken := target]);
      AloneStep(m, agent, st1, ConnectAnnounce(dev.value, st.nextToken), es);
    }
  }

  /** Disconnecting: a link that is not live changes nothing; a live one is gone, with one event. */
  lemma DisconnectClosedForm(m: Config, agent: Agent, st: State, conn: Connection, es: seq<Event>)
    ensures var ran := Alone(m, agent, st, Task.Disconnect(conn), es);
            if conn.token !in st.connections then ran == Ran(st, Done(Failed(NotConnected(conn.peer))), es)
            else
              var origin := Origin(conn.local, conn.peer, conn.spec, conn.radio, conn.portAuth);
              ran == Ran(st.(seq_ := st.seq_ + 1, clock := st.clock + 1_000_000, connections := st.connections - {conn.token}),
                         Done(Unlinked(conn.token)), es + [Event(st.seq_, st.clock, origin, Disconnected(None))])
  {
    hide Alone, Lookup, ConnectStep, PairStep, AcceptStep, PushStep, DiscoverStep;
    AloneEnd(m, agent);
    AloneStep(m, agent, st, Task.Disconnect(conn), es);
    var st1 := st.(connections := st.connections - {conn.token});
    AloneStep(m, agent, st1, DisconnectAnnounce(conn), es);
  }

  /** A push over a dead link or to an unknown device fails at once and changes nothing. */
  lemma PushRefused(m: Config, agent: Agent, st: State, conn: Connection, file: File, es: seq<Event>)
    ensures conn.token !in st.connections ==>
              Alone(m, agent, st, Task.PushFile(conn, file), es) == Ran(st, Done(Failed(NotConnected(conn.peer))), es)
    ensures conn.token in st.connections && Lookup(m.devices, conn.peer).None? ==>
              Alone(m, agent, st, Task.PushFile(conn, file), es) == Ran(st, Done(Failed(DeviceNotFound(conn.peer))), es)
  {
    hide Alone, Lookup, ConnectStep, DisconnectStep, PairStep, AcceptStep, PushStep, DiscoverStep;
    AloneEnd(m, agent);
    AloneStep(m, agent, st, Task.PushFile(conn, file), es);
  }

  /** Every event carries the context it belongs to: that of its link for pushes and hanging up, that of
      the device as scripted for connecting, pairing and sightings, the adapter's own for a scan. */
  lemma StepOrigins(m: Config, st: State, t: Task, r: Response)
    requires !Ended(t) && Step(m, st, t, r).event.Some?
    ensures var origin := Step(m, st, t, r).event.value.origin;
            && (IsPush(t) ==>
                  var c := t.p.conn;
                  origin == Origin(c.local, c.peer, c.spec, c.radio, c.portAuth))
            && (t.DisconnectAnnounce? ==>
                  origin == Origin(t.conn.local, t.conn.peer, t.conn.spec, t.conn.radio, t.conn.portAuth))
            && (t.ConnectAnnounce? || t.Pairing? ==>
                  origin == Origin(m.local, t.dev.id, t.dev.spec, t.dev.radio, t.dev.portAuth))
            && (t.Accept? || t.DiscoverNext? ==>
                  && t.left != []
                  && var d := t.left[0];
                     origin == Origin(m.local, d.id, d.spec, d.radio, d.portAuth))
            && (t.Discover? ==>
                  origin == Origin(m.local, DeviceId([0, 0, 0, 0, 0, 0], Public), m.spec, m.radio, m.portAuth))
            && (IsPush(t) || t.DisconnectAnnounce? || t.ConnectAnnounce? || t.Pairing? || t.Accept? || t.DiscoverNext? || t.Discover?)
  {
    hide Lookup, LinkFailure, Matches, NextChunk, Answered;
  }

  // ---------------------------------------------------------------- discovery

  /** What a filter asks of a device: over the transport asked for, where a dual-mode one is over both;
      at least the signal strength asked for; and the text asked for somewhere in its name, whatever the
      case. What is not asked for is not looked at. */
  ghost predicate Wanted(m: Config, f: Filter, d: Device) {
    && (f.transport == Some(BrEdr) ==> d.spec.transport != Le)
    && (f.transport == Some(Le) ==> d.spec.transport != BrEdr)
    && (f.minRssi.Some? ==> exists r :: d.rssi == Some(r) && f.minRssi.value <= r)
    && (f.nameContains.Some? ==>
          exists before, after ::
            && d.name.Some?
            && m.lower(d.name.value) == before + m.lower(f.nameContains.value) + after)
  }

  lemma OccursIff(s: string, part: string)
    ensures Contains(s, part) <==> exists before, after :: s == before + part + after
  {
    if Contains(s, part) {
      var i :| 0 <= i <= |s| && OccursAt(s, part, i);
      assert s == s[..i] + part + s[i + |part|..];
    }
    forall before, after | s == before + part + after
      ensures Contains(s, part)
    {
      assert OccursAt(s, part, |before|);
    }
  }

  lemma WantedIff(m: Config, f: Filter, d: Device)
    ensures Matches(m, f, d) <==> Wanted(m, f, d)
  {
    hide Contains;
    if f.nameContains.Some? && d.name.Some? {
      OccursIff(m.lower(d.name.value), m.lower(f.nameContains.value));
    }
  }

  /** The devices a filter wants, in order. */
  ghost function Admitted(m: Config, f: Filter, ds: seq<Device>): seq<Device> {
    if ds == [] then []
    else (if Wanted(m, f, ds[0]) then [ds[0]] else []) + Admitted(m, f, ds[1..])
  }

  function Ids(ds: seq<Device>): seq<DeviceId> {
    seq(|ds|, i requires 0 <= i < |ds| => ds[i].id)
  }

  function Sightings(ds: seq<Device>): seq<Kind> {
    seq(|ds|, i requires 0 <= i < |ds| => DeviceDiscovered(ds[i].rssi))
  }

  /** The devices a scan that has found `n` so far still reports. */
  ghost function ToReport(m: Config, f: Filter, ds: seq<Device>, n: nat): seq<Device> {
    var all := Admitted(m, f, ds);
    all[..if f.limit.Some? then Min(Max(f.limit.value - n, 0), |all|) else |all|]
  }

  lemma ToReportStep(m: Config, f: Filter, ds: seq<Device>, n: nat)
    requires ds != []
    ensures !Matches(m, f, ds[0]) ==> ToReport(m, f, ds, n) == ToReport(m, f, ds[1..], n)
    ensures f.limit.Some? && n >= f.limit.value ==> ToReport(m, f, ds, n) == []
    ensures Matches(m, f, ds[0]) && (f.limit.Some? ==> n < f.limit.value) ==>
              ToReport(m, f, ds, n) == [ds[0]] + ToReport(m, f, ds[1..], n + 1)
  {
    hide Matches, Wanted;
    WantedIff(m, f, ds[0]);
    var rest := Admitted(m, f, ds[1..]);
    if Matches(m, f, ds[0]) && (f.limit.Some? ==> n < f.limit.value) {
      assert Admitted(m, f, ds) == [ds[0]] + rest;
    }
  }

  ghost predicate Discovered(st: State, es: seq<Event>, found: seq<DeviceId>, ds: seq<Device>, ran: Ran) {
    && ran.task == Done(Found(found + Ids(ds)))
    && Kinds(ran.events) == Kinds(es) + Sightings(ds)
    && ran.st == st.(seq_ := st.seq_ + |ds|, clock := st.clock + |ds| * TICK)
  }

  lemma DiscoveredNone(st: State, es: seq<Event>, found: seq<DeviceId>)
    ensures Discovered(st, es, found, [], Ran(st, Done(Found(found)), es))
  {
    hide Kinds;
    assert found + Ids([]) == found;
    assert Kinds(es) + Sightings([]) == Kinds(es);
  }

  lemma DiscoveredOneMore(st: State, es: seq<Event>, found: seq<DeviceId>, d: Device, ds: seq<Device>, e: Event, ran: Ran)
    requires e.kind == DeviceDiscovered(d.rssi)
    requires Discovered(st.(seq_ := st.seq_ + 1, clock := st.clock + TICK), es + [e], found + [d.id], ds, ran)
    ensures Discovered(st, es, found, [d] + ds, ran)
  {
    hide Kinds;
    KindsLater(es, e);
    assert found + Ids([d] + ds) == found + [d.id] + Ids(ds);
    assert Kinds(es) + Sightings([d] + ds) == Kinds(es) + [e.kind] + Sightings(ds);
  }

  lemma {:induction false} DiscoverAlone(m: Config, agent: Agent, st: State, left: seq<Device>, f: Filter,
                                         found: seq<DeviceId>, es: seq<Event>)
    ensures Discovered(st, es, found, ToReport(m, f, left, |found|), Alone(m, agent, st, DiscoverNext(left, f, found), es))
    decreases |left|
  {
    hide Alone, OriginOf, Matches, ConnectStep, DisconnectStep, PairStep, AcceptStep, PushStep, Discovered, ToReport;
    var t := DiscoverNext(left, f, found);
    AloneStep(m, agent, st, t, es);
    AloneEnd(m, agent);
    DiscoveredNone(st, es, found);
    if left == [] {
      NothingToReport(m, f, |found|);
    } else {
      ToReportStep(m, f, left, |found|);
      if !Matches(m, f, left[0]) {
        DiscoverAlone(m, agent, st, left[1..], f, found, es);
      } else if !(f.limit.Some? && |found| >= f.limit.value) {
        var n := Step(m, st, t, Reply(agent, t));
        DiscoverAlone(m, agent, n.st, left[1..], f, found + [left[0].id], es + [n.event.value]);
        DiscoveredOneMore(st, es, found, left[0], ToReport(m, f, left[1..], |found| + 1), n.event.value,
                          Alone(m, agent, st, t, es));
      }
    }
  }

  lemma NothingToReport(m: Config, f: Filter, n: nat)
    ensures ToReport(m, f, [], n) == []
  {
  }

  /** A scan with nothing beside it finds the first `limit` devices the filter admits, in order, and
      announces each once behind the start event, one tick apart. */
  lemma DiscoverClosedForm(m: Config, agent: Agent, st: State, f: Filter, es: seq<Event>)
    ensures var all := Admitted(m, f, m.devices);
            var ds := if f.limit.Some? && f.limit.value < |all| then all[..f.limit.value] else all;
            var ran := Alone(m, agent, st, Task.Discover(f), es);
            && ran.task == Done(Found(Ids(ds)))
            && Kinds(ran.events) == Kinds(es) + [DiscoveryStarted] + Sightings(ds)
            && ran.st == st.(seq_ := st.seq_ + 1 + |ds|, clock := st.clock + (1 + |ds|) * 1_000_000)
  {
    hide Alone, OriginOf, AdapterOrigin, Matches, ConnectStep, DisconnectStep, PairStep, AcceptStep, PushStep, Kinds, Admitted;
    var t := Task.Discover(f);
    AloneStep(m, agent, st, t, es);
    var n := Step(m, st, t, Reply(agent, t));
    KindsLater(es, n.event.value);
    DiscoverAlone(m, agent, n.st, m.devices, f, [], es + [n.event.value]);
    var all := Admitted(m, f, m.devices);
    assert all[..|all|] == all;
    var ds := ToReport(m, f, m.devices, 0);
    assert [] + Ids(ds) == Ids(ds);
  }
}
