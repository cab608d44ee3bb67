/** Upload orchestration over the mock backend: connect, push with retries, disconnect. */
module Upload {
  import opened Bytes
  import opened Events
  import opened Progress
  import opened Metrics
  import opened Mock
  import opened MockSystem
  import opened MockBackend
  import opened MockRuns

  datatype UploadOptions = UploadOptions(retries: nat, disconnectAfter: bool)

  datatype Outbound = Outbound(name: string, bytes: seq<byte>)

  type PushResult = Result<Receipt, TransportError>

  /** `retries.saturating_add(1)`. */
  function MaxAttempts(retries: nat): (n: nat)
    ensures n >= 1
  {
    Min(retries + 1, 0xFFFF_FFFF)
  }

  /** The parts of the state an upload may not disturb on its way. */
  predicate SameLinks(a: State, b: State) {
    a.connections == b.connections && a.nextToken == b.nextToken && a.paired == b.paired
  }

  /** Bytes that go out when a device gets a file of this length, once. */
  function BytesSent(d: Device, len: nat): nat {
    if LetsThrough(d, len) then len else d.failAfter.value / ChunkSize(d) * ChunkSize(d)
  }

  /** The result of one push of a file to a device, its duration aside. */
  predicate ScriptedResult(d: Device, f: Outbound, r: PushResult) {
    EndsAsScripted(Push(Connection(d.id, "", d.spec, "", "", 0), d, File(f.name, |f.bytes|), 0, 0, 0), r)
  }

  lemma ScriptedIs(d: Device, f: Outbound, r: PushResult)
    ensures ScriptedResult(d, f, r) ==>
              && (r.Ok? <==> LetsThrough(d, |f.bytes|))
              && (r.Ok? ==> r.value.name == f.name && r.value.bytes == |f.bytes| == BytesSent(d, |f.bytes|))
              && (r.Err? ==> r == Err(TransferFailed(BytesSent(d, |f.bytes|), LinkFailure(d.failAfter.value))))
    ensures forall p: Push :: p.dev == d && p.file == File(f.name, |f.bytes|) && EndsAsScripted(p, r) ==> ScriptedResult(d, f, r)
  {
    hide LinkFailure;
  }

  /** The events of one push of a file to a device. */
  function PushKinds(d: Device, f: Outbound): seq<Kind> {
    var len := |f.bytes|;
    var k := ChunksSent(d, len);
    [TransferStarted(f.name, len)] + ChunkKinds(ChunkSize(d), len, 0, k) + [LastKind(d, len, TICK + k * d.perChunk)]
  }

  /** The events of pushing a file `n` times over. */
  function PushedTimes(d: Device, f: Outbound, n: nat): seq<Kind> {
    if n == 0 then [] else PushedTimes(d, f, n - 1) + PushKinds(d, f)
  }

  /** The events of pushing each file once, in order. */
  function PushedOnce(d: Device, files: seq<Outbound>): seq<Kind> {
    if files == [] then [] else PushedOnce(d, files[..|files| - 1]) + PushKinds(d, files[|files| - 1])
  }

  lemma OneMorePush(before: seq<Kind>, d: Device, f: Outbound, n: nat)
    ensures before + PushedTimes(d, f, n) + PushKinds(d, f) == before + PushedTimes(d, f, n + 1)
  {
    hide PushKinds;
    assert PushedTimes(d, f, n + 1) == PushedTimes(d, f, n) + PushKinds(d, f);
  }

  lemma NothingOnce(before: seq<Kind>, d: Device)
    ensures before + PushedOnce(d, []) == before
  {
  }

  lemma OneMoreFile(before: seq<Kind>, d: Device, files: seq<Outbound>, i: nat)
    requires i < |files|
    ensures before + PushedOnce(d, files[..i]) + PushedTimes(d, files[i], 1) == before + PushedOnce(d, files[..i + 1])
  {
    hide PushKinds;
    assert files[..i + 1][..i] == files[..i];
    assert PushedTimes(d, files[i], 1) == [] + PushKinds(d, files[i]) == PushKinds(d, files[i]);
  }

  /** One push, in terms of what a caller sees. */
  lemma PushEffect(m: Config, agent: Agent, st: State, conn: Connection, f: Outbound, es: seq<Event>)
    requires conn.token in st.connections && Lookup(m.devices, conn.peer).Some?
    ensures var d := Lookup(m.devices, conn.peer).value;
            var ran := Alone(m, agent, st, Task.PushFile(conn, File(f.name, |f.bytes|)), es);
            && ran.task.PushEnded? && ScriptedResult(d, f, ran.task.result)
            && SameLinks(st, ran.st)
            && Kinds(ran.events) == Kinds(es) + PushKinds(d, f)
  {
    hide Alone, Lookup, LinkFailure, EndsAsScripted, ChunkKinds, ChunksSent, LastKind, ScriptedResult, Kinds;
    var d := Lookup(m.devices, conn.peer).value;
    var len := |f.bytes|;
    var ran := Alone(m, agent, st, Task.PushFile(conn, File(f.name, len)), es);
    PushClosedForm(m, agent, st, conn, File(f.name, len), es);
    ScriptedIs(d, f, ran.task.result);
    var k := ChunksSent(d, len);
    var last := LastKind(d, len, TICK + k * d.perChunk);
    assert Kinds(es) + PushKinds(d, f)
        == Kinds(es) + [TransferStarted(f.name, len)] + ChunkKinds(ChunkSize(d), len, 0, k) + [last];
  }

  /** Pushes over an open connection, again after each aborted transfer. The mock's script decides
      alike every time: a file that gets through is pushed once, one that does not is pushed as
      often as allowed, and the links stay as they are. Any other failure is returned at once. */
  method PushWithRetries(backend: MockBackend, conn: Connection, file: Outbound, retries: nat, ghost agent: Agent)
    returns (r: PushResult)
    modifies backend, backend.observer
    ensures var device := Lookup(backend.config.devices, conn.peer);
            if conn.token !in old(backend.connections) || device.None? then
              r == Err(if conn.token !in old(backend.connections) then NotConnected(conn.peer) else DeviceNotFound(conn.peer))
              && backend.Locked() == old(backend.Locked())
              && backend.observer.events == old(backend.observer.events)
            else
              var d := device.value;
              var attempts := if LetsThrough(d, |file.bytes|) then 1 else Min(retries + 1, 0xFFFF_FFFF);
              && ScriptedResult(d, file, r)
              && SameLinks(old(backend.Locked()), backend.Locked())
              && Kinds(backend.observer.events) == Kinds(old(backend.observer.events)) + PushedTimes(d, file, attempts)
  {
    hide Alone, Lookup, LinkFailure, EndsAsScripted, LetsThrough, BytesSent, ScriptedResult, ChunkSize, PushKinds, Kinds;
    ghost var device := Lookup(backend.config.devices, conn.peer);
    ghost var dead := conn.token !in backend.connections || device.None?;
    ghost var before := Kinds(backend.observer.events);
    var maxAttempts := MaxAttempts(retries);
    var lastErr: Option<TransportError> := None;
    var i := 0;
    while i < maxAttempts
      invariant 0 <= i <= maxAttempts
      invariant i == 0 ==> backend.Locked() == old(backend.Locked()) && backend.observer.events == old(backend.observer.events)
      invariant i > 0 ==> !dead && lastErr.Some?
      invariant i > 0 ==> ScriptedResult(device.value, file, Err(lastErr.value)) && !LetsThrough(device.value, |file.bytes|)
      invariant SameLinks(old(backend.Locked()), backend.Locked())
      invariant !dead ==> Kinds(backend.observer.events) == before + PushedTimes(device.value, file, i)
    {
      if dead {
        PushRefused(backend.config, agent, backend.Locked(), conn, File(file.name, |file.bytes|), backend.observer.events);
      } else {
        PushEffect(backend.config, agent, backend.Locked(), conn, file, backend.observer.events);
        OneMorePush(before, device.value, file, i);
      }
      r := backend.PushFile(conn, file.name, file.bytes, agent);
      if !dead {
        ScriptedIs(device.value, file, r);
      }
      if r.Ok? {
        return;
      }
      if !r.error.TransferFailed? {
        return;
      }
      lastErr := Some(r.error);
      i := i + 1;
    }
    return Err(lastErr.value);
  }

  /** The invariant TokenSafety proves of every run: live tokens are below the next one. */
  predicate TokensBelow(st: State) {
    forall k :: k in st.connections ==> k < st.nextToken
  }

  lemma ConnectEffect(m: Config, agent: Agent, st: State, target: DeviceId, es: seq<Event>)
    ensures var d := Lookup(m.devices, target);
            var ran := Alone(m, agent, st, ConnectTo(target), es);
            if d.None? then ran == Ran(st, Done(Failed(DeviceNotFound(target))), es)
            else
              && ran.task.Done? && ran.task.outcome.Linked?
              && ran.task.outcome.conn.peer == target && ran.task.outcome.conn.token == st.nextToken
              && SameLinks(ran.st, st.(nextToken := st.nextToken + 1, connections := st.connections[st.nextToken := target]))
              && Kinds(ran.events) == Kinds(es) + [Connected]
  {
    hide Alone, Lookup, OriginOf, DisconnectStep, PairStep, AcceptStep, PushStep, DiscoverStep, Kinds;
    AloneEnd(m, agent);
    AloneStep(m, agent, st, ConnectTo(target), es);
    var d := Lookup(m.devices, target);
    if d.Some? {
      AloneStep(m, agent, st, ConnectAlloc(d.value), es);
      var st1 := st.(nextToken := st.nextToken + 1, connections := st.connections[st.nextToken := target]);
      AloneStep(m, agent, st1, ConnectAnnounce(d.value, st.nextToken), es);
      KindsLater(es, Step(m, st1, ConnectAnnounce(d.value, st.nextToken), Cancel).event.value);
    }
  }

  lemma DisconnectEffect(m: Config, agent: Agent, st: State, conn: Connection, es: seq<Event>)
    requires conn.token in st.connections
    ensures var ran := Alone(m, agent, st, Task.Disconnect(conn), es);
            && SameLinks(ran.st, st.(connections := st.connections - {conn.token}))
            && Kinds(ran.events) == Kinds(es) + [Disconnected(None)]
  {
    hide Alone, Lookup, LinkOrigin, ConnectStep, PairStep, AcceptStep, PushStep, DiscoverStep, Kinds;
    AloneEnd(m, agent);
    AloneStep(m, agent, st, Task.Disconnect(conn), es);
    var st1 := st.(connections := st.connections - {conn.token});
    AloneStep(m, agent, st1, DisconnectAnnounce(conn), es);
    KindsLater(es, Step(m, st1, DisconnectAnnounce(conn), Cancel).event.value);
  }

  /** What hanging up adds to the events. */
  function HangUp(options: UploadOptions): seq<Kind> {
    if options.disconnectAfter then [Disconnected(None)] else []
  }

  /** Uploads one file. On every outcome, with `disconnectAfter` the live connections are exactly
      those there were before. */
  method UploadFile(backend: MockBackend, target: DeviceId, file: Outbound, options: UploadOptions, ghost agent: Agent)
    returns (r: PushResult)
    requires TokensBelow(backend.Locked())
    modifies backend, backend.observer
    ensures TokensBelow(backend.Locked())
    ensures var device := Lookup(backend.config.devices, target);
            if device.None? then
              r == Err(DeviceNotFound(target)) && backend.Locked() == old(backend.Locked())
              && backend.observer.events == old(backend.observer.events)
            else
              var d := device.value;
              var attempts := if LetsThrough(d, |file.bytes|) then 1 else Min(options.retries + 1, 0xFFFF_FFFF);
              && ScriptedResult(d, file, r)
              && (options.disconnectAfter ==> backend.connections == old(backend.connections))
              && (!options.disconnectAfter ==> backend.connections == old(backend.connections)[old(backend.nextToken) := target])
              && Kinds(backend.observer.events)
              == Kinds(old(backend.observer.events)) + [Connected] + PushedTimes(d, file, attempts) + HangUp(options)
  {
    hide Alone, Lookup, LinkFailure, EndsAsScripted, LetsThrough, ScriptedResult, ChunkSize, PushKinds, Kinds, PushedTimes;
    ConnectEffect(backend.config, agent, backend.Locked(), target, backend.observer.events);
    var conn := backend.Connect(target, agent);
    if conn.Err? {
      return Err(conn.error);
    }
    r := PushWithRetries(backend, conn.value, file, options.retries, agent);
    if options.disconnectAfter {
      DisconnectEffect(backend.config, agent, backend.Locked(), conn.value, backend.observer.events);
      var gone := backend.Disconnect(conn.value, agent);
      assert backend.connections == old(backend.connections)[old(backend.nextToken) := target] - {old(backend.nextToken)};
    }
  }

  /** The first file the device does not let through, or the number of files. */
  function FirstRefused(d: Device, files: seq<Outbound>): (i: nat)
    ensures i <= |files|
    ensures forall j :: 0 <= j < i ==> LetsThrough(d, |files[j].bytes|)
    ensures i < |files| ==> !LetsThrough(d, |files[i].bytes|)
  {
    if files == [] || !LetsThrough(d, |files[0].bytes|) then 0 else 1 + FirstRefused(d, files[1..])
  }

  /** The events of all pushes of an upload: each file once, up to the first refused, and that one as
      often as allowed. */
  function Pushes(d: Device, files: seq<Outbound>, attempts: nat): seq<Kind> {
    var n := FirstRefused(d, files);
    PushedOnce(d, files[..n]) + if n < |files| then PushedTimes(d, files[n], attempts) else []
  }

  /** Uploads several files over one connection. It succeeds exactly when every file gets through,
      with one receipt per file in order; otherwise it stops at the first that does not, having
      pushed that one as often as allowed and none after it. */
  method UploadFiles(backend: MockBackend, target: DeviceId, files: seq<Outbound>, options: UploadOptions, ghost agent: Agent)
    returns (r: Result<seq<Receipt>, TransportError>)
    requires TokensBelow(backend.Locked())
    modifies backend, backend.observer
    ensures TokensBelow(backend.Locked())
    ensures var device := Lookup(backend.config.devices, target);
            if device.None? then
              r == Err(DeviceNotFound(target)) && backend.Locked() == old(backend.Locked())
              && backend.observer.events == old(backend.observer.events)
            else
              var d := device.value;
              var n := FirstRefused(d, files);
              && (if n == |files| then
                    r.Ok? && |r.value| == |files| && forall i :: 0 <= i < n ==> ScriptedResult(d, files[i], Ok(r.value[i]))
                  else r.Err? && ScriptedResult(d, files[n], Err(r.error)))
              && (options.disconnectAfter ==> backend.connections == old(backend.connections))
              && (!options.disconnectAfter ==> backend.connections == old(backend.connections)[old(backend.nextToken) := target])
              && Kinds(backend.observer.events)
              == Kinds(old(backend.observer.events)) + [Connected] + Pushes(d, files, Min(options.retries + 1, 0xFFFF_FFFF)) + HangUp(options)
  {
    hide Alone, Lookup, LinkFailure, EndsAsScripted, LetsThrough, ScriptedResult, ChunkSize, FirstRefused, PushKinds, Kinds,
         PushedTimes, PushedOnce;
    ConnectEffect(backend.config, agent, backend.Locked(), target, backend.observer.events);
    var conn := backend.Connect(target, agent);
    if conn.Err? {
      return Err(conn.error);
    }
    var receipts: seq<Receipt> := [];
    var error: Option<TransportError> := None;
    ghost var d := Lookup(backend.config.devices, target).value;
    ghost var n := FirstRefused(d, files);
    ghost var linked, before := backend.Locked(), Kinds(backend.observer.events);
    assert files[..0] == [];
    NothingOnce(before, d);
    var i := 0;
    while i < |files|
      invariant 0 <= i <= n <= |files| && |receipts| == i && error.None?
      invariant forall j :: 0 <= j < i ==> ScriptedResult(d, files[j], Ok(receipts[j]))
      invariant SameLinks(linked, backend.Locked())
      invariant Kinds(backend.observer.events) == before + PushedOnce(d, files[..i])
    {
      var pushed := PushWithRetries(backend, conn.value, files[i], options.retries, agent);
      ScriptedIs(d, files[i], pushed);
      OneMoreFile(before, d, files, i);
      if pushed.Err? {
        error := Some(pushed.error);
        break;
      }
      receipts := receipts + [pushed.value];
      i := i + 1;
    }
    if options.disconnectAfter {
      DisconnectEffect(backend.config, agent, backend.Locked(), conn.value, backend.observer.events);
      var gone := backend.Disconnect(conn.value, agent);
      assert backend.connections == old(backend.connections)[old(backend.nextToken) := target] - {old(backend.nextToken)};
    }
    if error.Some? {
      return Err(error.value);
    }
    return Ok(receipts);
  }

  // ---------------------------------------------------------------- what was pushed

  /** The names of the transfers started, in order. */
  function StartedNames(ks: seq<Kind>): seq<string> {
    if ks == [] then []
    else (if ks[0].TransferStarted? then [ks[0].name] else []) + StartedNames(ks[1..])
  }

  lemma {:induction false} StartedAppend(a: seq<Kind>, b: seq<Kind>)
    ensures StartedNames(a + b) == StartedNames(a) + StartedNames(b)
  {
    if a == [] {
      assert a + b == b;
    } else {
      assert (a + b)[1..] == a[1..] + b;
      StartedAppend(a[1..], b);
    }
  }

  lemma {:induction false} ChunksTotal(c: nat, len: nat, j: nat, k: nat)
    requires j <= k
    ensures StartedNames(ChunkKinds(c, len, j, k)) == []
    ensures ChunkBytes(ChunkKinds(c, len, j, k)) == Min(k * c, len) - Min(j * c, len)
    decreases k - j
  {
    if j < k {
      ChunksTotal(c, len, j + 1, k);
      assert (j + 1) * c == j * c + c;
      var pair := [DataChunk(Direction.Outbound, Max(Min(c, len - j * c), 0)), TransferProgress(Min((j + 1) * c, len), len)];
      var rest := ChunkKinds(c, len, j + 1, k);
      assert ChunkKinds(c, len, j, k) == pair + rest;
      StartedAppend(pair, rest);
      ChunksAppend(pair, rest);
      assert pair[1..] == [pair[1]] && [pair[1]][1..] == [];
      assert StartedNames([pair[1]]) == [] && ChunkBytes([pair[1]]) == 0;
    }
  }

  /** One push starts one transfer, under the file's name, and sends what the script lets through. */
  lemma PushTotals(d: Device, f: Outbound)
    ensures StartedNames(PushKinds(d, f)) == [f.name]
    ensures ChunkBytes(PushKinds(d, f)) == BytesSent(d, |f.bytes|)
  {
    hide LinkFailure, ChunkKinds;
    var len, c, k := |f.bytes|, ChunkSize(d), ChunksSent(d, |f.bytes|);
    var start, chunks, last := TransferStarted(f.name, len), ChunkKinds(c, len, 0, k), LastKind(d, len, TICK + k * d.perChunk);
    ChunksTotal(c, len, 0, k);
    StartedAppend([start] + chunks, [last]);
    StartedAppend([start], chunks);
    ChunksAppend([start] + chunks, [last]);
    ChunksAppend([start], chunks);
    ChunksOne(start);
    ChunksOne(last);
    assert [start][1..] == [] && [last][1..] == [];
    WholeChunks(d, len);
  }

  lemma WholeChunks(d: Device, len: nat)
    ensures Min(ChunksSent(d, len) * ChunkSize(d), len) == BytesSent(d, len)
  {
    var c := ChunkSize(d);
    if LetsThrough(d, len) {
      var k := (len + c - 1) / c;
      assert k * c + (len + c - 1) % c == len + c - 1;
    } else {
      var limit := d.failAfter.value;
      assert limit / c * c <= limit;
    }
  }

  function Repeated(name: string, n: nat): seq<string> {
    if n == 0 then [] else Repeated(name, n - 1) + [name]
  }

  function NamesOf(files: seq<Outbound>): seq<string> {
    if files == [] then [] else NamesOf(files[..|files| - 1]) + [files[|files| - 1].name]
  }

  function TotalBytes(files: seq<Outbound>): nat {
    if files == [] then 0 else TotalBytes(files[..|files| - 1]) + |files[|files| - 1].bytes|
  }

  lemma {:induction false} RepeatedTotals(d: Device, f: Outbound, n: nat)
    ensures StartedNames(PushedTimes(d, f, n)) == Repeated(f.name, n)
    ensures ChunkBytes(PushedTimes(d, f, n)) == n * BytesSent(d, |f.bytes|)
  {
    hide PushKinds, BytesSent, StartedNames, ChunkBytes;
    if n == 0 {
      NothingPushed();
    } else {
      RepeatedTotals(d, f, n - 1);
      PushTotals(d, f);
      StartedAppend(PushedTimes(d, f, n - 1), PushKinds(d, f));
      ChunksAppend(PushedTimes(d, f, n - 1), PushKinds(d, f));
      assert n * BytesSent(d, |f.bytes|) == (n - 1) * BytesSent(d, |f.bytes|) + BytesSent(d, |f.bytes|);
    }
  }

  lemma NothingPushed()
    ensures StartedNames([]) == [] && ChunkBytes([]) == 0
  {
  }

  lemma {:induction false} OnceTotals(d: Device, files: seq<Outbound>)
    requires forall f <- files :: LetsThrough(d, |f.bytes|)
    ensures StartedNames(PushedOnce(d, files)) == NamesOf(files)
    ensures ChunkBytes(PushedOnce(d, files)) == TotalBytes(files)
  {
    hide PushKinds, StartedNames, ChunkBytes, LetsThrough;
    if files == [] {
      NothingPushed();
    } else {
      var front, f := files[..|files| - 1], files[|files| - 1];
      OnceTotals(d, front);
      PushTotals(d, f);
      StartedAppend(PushedOnce(d, front), PushKinds(d, f));
      ChunksAppend(PushedOnce(d, front), PushKinds(d, f));
      assert f in files;
    }
  }

  /** An upload starts the files before the first refused one once each, in order, then that one as
      often as allowed, and nothing after it; the bytes sent are theirs. */
  lemma UploadTotals(d: Device, files: seq<Outbound>, attempts: nat)
    ensures var n := FirstRefused(d, files);
            var extra := if n < |files| then attempts else 0;
            && StartedNames(Pushes(d, files, attempts))
               == NamesOf(files[..n]) + (if n < |files| then Repeated(files[n].name, extra) else [])
            && ChunkBytes(Pushes(d, files, attempts))
               == TotalBytes(files[..n]) + (if n < |files| then extra * BytesSent(d, |files[n].bytes|) else 0)
  {
    hide PushKinds, StartedNames, ChunkBytes, LetsThrough, BytesSent, PushedOnce, PushedTimes, FirstRefused, NamesOf, TotalBytes;
    var n := FirstRefused(d, files);
    OnceTotals(d, files[..n]);
    NothingPushed();
    var once := PushedOnce(d, files[..n]);
    if n < |files| {
      var again := PushedTimes(d, files[n], attempts);
      RepeatedTotals(d, files[n], attempts);
      StartedAppend(once, again);
      ChunksAppend(once, again);
    } else {
      assert once + [] == once;
    }
  }

  /** A file that does not get through is started once more than the retries, or as often as 32 bits
      count if that is fewer, and sends that many times what one push of it sends. */
  lemma RefusedInNumbers(d: Device, f: Outbound, retries: nat)
    ensures var kinds := PushedTimes(d, f, Min(retries + 1, 0xFFFF_FFFF));
            && (retries < 0xFFFF_FFFF ==>
                  && |StartedNames(kinds)| == retries + 1
                  && ChunkBytes(kinds) == (retries + 1) * ChunkBytes(PushKinds(d, f)))
            && (retries >= 0xFFFF_FFFF ==>
                  && |StartedNames(kinds)| == 0xFFFF_FFFF
                  && ChunkBytes(kinds) == 0xFFFF_FFFF * ChunkBytes(PushKinds(d, f)))
            && forall name <- StartedNames(kinds) :: name == f.name
  {
    hide PushKinds, StartedNames, ChunkBytes, BytesSent, PushedTimes;
    var n := Min(retries + 1, 0xFFFF_FFFF);
    RepeatedTotals(d, f, n);
    RepeatedNames(f.name, n);
    PushTotals(d, f);
  }

  lemma {:induction false} RepeatedNames(name: string, n: nat)
    ensures |Repeated(name, n)| == n && forall x <- Repeated(name, n) :: x == name
  {
    if n > 0 {
      RepeatedNames(name, n - 1);
    }
  }
}
