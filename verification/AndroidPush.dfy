/** The Android backend's push: one OBEX session over a socket, accounted in events. */
module AndroidPush {
  import opened Bytes
  import opened Utf16
  import opened HexText
  import opened Events
  import opened Progress
  import opened ObexWire
  import opened ObexPlan
  import opened ObexClient

  /** A refusal becomes a transfer failure carrying the bytes acknowledged so far; anything else is
      a backend error. */
  function MapError(e: ObexError, prev: nat): TransportError {
    match e
    case Rejected(_, code) => TransferFailed(prev, "OBEX rejected (0x" + Hex2(UPPER, code) + ")")
    case Malformed(what) => Backend("obex: malformed obex response: " + what)
    case Io => Backend("obex: obex i/o")
  }

  /** The outcome of a session, the progress reported in it, and the bytes it put on the wire. */
  datatype Session = Session(result: Outcome, marks: seq<nat>, wire: seq<byte>)

  function SessionFrom(name: string, data: seq<byte>, input: seq<byte>, room: nat, torn: nat): Session {
    if room == 0 then Session(Err(Io), [], Torn(CONNECT_PACKET, torn))
    else match ReadFrom(input)
      case Failed(e, _) => Session(Err(e), [], CONNECT_PACKET)
      case Got(resp, rest) =>
        if resp.code != RESP_SUCCESS then Session(Err(Rejected(ConnectStage, resp.code)), [], CONNECT_PACKET)
        else
          var max := Negotiated(resp);
          var p := NamePayload(name);
          var plan := Plan(p, data, max, 0);
          var x := Exchange(plan, rest, room - 1);
          var marks := Marks(|p|, |data|, max, 0, x.acked);
          var wire := CONNECT_PACKET + OnWire(plan, x, room - 1, torn);
          if x.outcome.Err? then Session(x.outcome, marks, wire)
          else
            var bye := Request(DisconnectStage, RESP_SUCCESS, x.rest, room - 1 - x.written);
            Session(bye.outcome, marks, wire + Sending(DISCONNECT_PACKET, bye, torn))
  }

  /** The maximum packet size after a CONNECT response. */
  function Negotiated(resp: Response): (max: nat)
    ensures 255 <= max <= OUR_MAX_PACKET
  {
    Min(OUR_MAX_PACKET, PeerMax(resp))
  }

  class AndroidBackend {
    var log: seq<Kind>  // kinds of the events emitted so far, in order

    constructor ()
      ensures log == []
    {
      log := [];
    }

    method Emit(kind: Kind)
      modifies this
      ensures log == old(log) + [kind]
    {
      log := log + [kind];
    }

    /** The whole session: connect, put, disconnect. Returns the number of chunks. */
    method RunPush(io: ObexClient.Transport, name: string, data: seq<byte>) returns (r: Result<nat, TransportError>)
      modifies this, io
      ensures var s := SessionFrom(name, data, old(io.input), old(io.room), io.torn);
              && log == old(log) + DeltaEvents(0, s.marks, |data|, false)
              && io.sent == old(io.sent) + s.wire
              && r == match s.result
                      case Ok(_) => Ok(Advances(0, s.marks))
                      case Err(e) => Err(MapError(e, Last(0, s.marks)))
    {
      hide Exchange, Plan, Marks, NamePayload, ReadFrom, DeltaEvents, OnWire, Torn;
      var chunks: nat := 0;
      var prev: nat := 0;
      DeltaEventsNone(|data|);
      var client := ObexOppClient.Connect(io);
      if client.Err? {
        return Err(MapError(client.error, prev));
      }
      var put, progress := client.value.PutFile(name, data);
      chunks, prev := OnProgress(progress, |data|);
      if put.Err? {
        return Err(MapError(put.error, prev));
      }
      var bye := client.value.Disconnect();
      if bye.Err? {
        return Err(MapError(bye.error, prev));
      }
      return Ok(chunks);
    }

    /** The progress callback, applied to the reports in order. */
    method OnProgress(progress: seq<nat>, total: nat) returns (chunks: nat, prev: nat)
      modifies this
      ensures log == old(log) + DeltaEvents(0, progress, total, false)
      ensures chunks == Advances(0, progress) && prev == Last(0, progress)
    {
      chunks, prev := 0, 0;
      for i := 0 to |progress|
        invariant prev == Last(0, progress[..i])
        invariant log == old(log) + DeltaEvents(0, progress[..i], total, false)
        invariant chunks == ChunkCount(DeltaEvents(0, progress[..i], total, false))
      {
        var sent := progress[i];
        assert progress[..i + 1] == progress[..i] + [sent];
        DeltaEventsAppend(0, progress[..i], sent, total, false);
        ReportBytes(prev, sent, total, false);
        ChunksAppend(DeltaEvents(0, progress[..i], total, false), ReportEvents(prev, sent, total, false));
        var delta := Max(sent - prev, 0);
        prev := sent;
        if delta > 0 {
          chunks := chunks + 1;
          Emit(DataChunk(Outbound, delta));
          Emit(TransferProgress(sent, total));
        }
      }
      assert progress[..|progress|] == progress;
      DeltasTelescope(0, progress, total, false);
    }

    /** `push_file`: the session between a start event and a completion or error event. */
    method PushFile(io: ObexClient.Transport, name: string, data: seq<byte>, duration: nat)
      returns (r: Result<Receipt, TransportError>)
      modifies this, io
      ensures var s := SessionFrom(name, data, old(io.input), old(io.room), io.torn);
              var pushed := DeltaEvents(0, s.marks, |data|, false);
              && io.sent == old(io.sent) + s.wire
              && match s.result
              case Ok(_) =>
                && log == old(log) + [TransferStarted(name, |data|)] + pushed + [TransferCompleted(|data|, duration)]
                && r == Ok(Receipt(name, |data|, Max(Advances(0, s.marks), 1), duration))
              case Err(e) =>
                var error := MapError(e, Last(0, s.marks));
                && log == old(log) + [TransferStarted(name, |data|)] + pushed + [Error(ErrorText(error))]
                && r == Err(error)
    {
      hide DeltaEvents, SessionFrom, ErrorText;
      var total := |data|;
      Emit(TransferStarted(name, total));
      var result := RunPush(io, name, data);
      match result
      case Ok(chunks) =>
        Emit(TransferCompleted(total, duration));
        return Ok(Receipt(name, total, Max(chunks, 1), duration));
      case Err(e) =>
        Emit(Error(ErrorText(e)));
        return Err(e);
    }
  }

  lemma DeltaEventsNone(total: nat)
    ensures DeltaEvents(0, [], total, false) == []
    ensures Advances(0, []) == 0
  {
  }

  lemma {:induction false} MarksIncrease(nameLen: nat, total: nat, max: nat, offset: nat, k: nat)
    requires offset <= total
    ensures Nondecreasing(offset, Marks(nameLen, total, max, offset, k))
    ensures offset <= Last(offset, Marks(nameLen, total, max, offset, k)) <= total
    decreases k
  {
    if k > 0 {
      var next := offset + ChunkLen(nameLen, total, max, offset);
      MarksIncrease(nameLen, total, max, next, k - 1);
      var later := Marks(nameLen, total, max, next, k - 1);
      assert ([next] + later)[1..] == later;
      assert Last(offset, [next] + later) == Last(next, later);
    }
  }

  /** A file that is not empty is accounted in one chunk per acknowledged packet. */
  lemma {:induction false} OneChunkPerPacket(p: seq<byte>, data: seq<byte>, max: nat, offset: nat, k: nat)
    requires offset < |data| && k <= |Plan(p, data, max, offset)|
    ensures Advances(offset, Marks(|p|, |data|, max, offset, k)) == k
    decreases k
  {
    hide PutPacket;
    if k > 0 {
      var next := offset + ChunkLen(|p|, |data|, max, offset);
      var later := Marks(|p|, |data|, max, next, k - 1);
      assert ([next] + later)[1..] == later;
      PlanHead(p, data, max, offset);
      if k > 1 {
        OneChunkPerPacket(p, data, max, next, k - 1);
      }
    }
  }

  /** The PUT phase: its reports never go back, never pass the end, and reach it on success. */
  lemma PutReports(p: seq<byte>, data: seq<byte>, max: nat, input: seq<byte>, room: nat)
    ensures var x := Exchange(Plan(p, data, max, 0), input, room);
            var marks := Marks(|p|, |data|, max, 0, x.acked);
            && Nondecreasing(0, marks) && Last(0, marks) <= |data|
            && (x.outcome.Ok? ==> Last(0, marks) == |data|)
            && (x.outcome.Err? && x.outcome.error.Rejected? ==> x.outcome.error.stage == PutStage)
  {
    hide Exchange, Plan, Marks, Nondecreasing, Reach, Transcript, ReadFrom;
    var plan := Plan(p, data, max, 0);
    var x := Exchange(plan, input, room);
    MarksIncrease(|p|, |data|, max, 0, x.acked);
    ReachAll(p, data, max, 0);
    LastMark(|p|, |data|, max, x.acked);
    var rs, rest := LockStep(plan, input, room);
    ReadErrors(rest);
  }

  lemma ReadErrors(input: seq<byte>)
    ensures ReadFrom(input).Failed? ==> !ReadFrom(input).error.Rejected?
  {
  }

  lemma RequestErrors(stage: Stage, expected: byte, input: seq<byte>, room: nat)
    ensures var o := Request(stage, expected, input, room).outcome;
            o.Err? && o.error.Rejected? ==> o.error.stage == stage
  {
  }

  predicate ConnectAccepted(input: seq<byte>, room: nat) {
    room > 0 && ReadFrom(input).Got? && ReadFrom(input).response.code == RESP_SUCCESS
  }

  /** What a session reports: nothing before the PUT phase, everything after it. */
  lemma SessionReports(name: string, data: seq<byte>, input: seq<byte>, room: nat, torn: nat)
    ensures var s := SessionFrom(name, data, input, room, torn);
            && Nondecreasing(0, s.marks) && Last(0, s.marks) <= |data|
            && (s.result.Ok? ==> Last(0, s.marks) == |data|)
            && (s.result.Err? && s.result.error.Rejected? ==>
                  && (s.result.error.stage == ConnectStage ==> s.marks == [])
                  && (s.result.error.stage == DisconnectStage ==> Last(0, s.marks) == |data|))
  {
    hide Exchange, Plan, Marks, NamePayload, Nondecreasing, Last, ReadFrom, PeerMax, Request, OnWire, Torn;
    ReadErrors(input);
    NothingReported();
    if ConnectAccepted(input, room) {
      var max := Negotiated(ReadFrom(input).response);
      var p := NamePayload(name);
      var x := Exchange(Plan(p, data, max, 0), ReadFrom(input).rest, room - 1);
      PutReports(p, data, max, ReadFrom(input).rest, room - 1);
      RequestErrors(DisconnectStage, RESP_SUCCESS, x.rest, room - 1 - x.written);
    }
  }

  lemma NothingReported()
    ensures Nondecreasing(0, []) && Last(0, []) == 0
  {
  }

  /** However the session goes, the chunk events add up to the acknowledged bytes, which is also
      what a refusal reports as transferred; a session that succeeds has accounted for the whole
      file, and so has one whose DISCONNECT is refused. */
  lemma AndroidAccounting(name: string, data: seq<byte>, input: seq<byte>, room: nat, torn: nat)
    ensures var s := SessionFrom(name, data, input, room, torn);
            var bytes := ChunkBytes(DeltaEvents(0, s.marks, |data|, false));
            && bytes == Last(0, s.marks) <= |data|
            && ChunkCount(DeltaEvents(0, s.marks, |data|, false)) == Advances(0, s.marks)
            && ProgressOf(DeltaEvents(0, s.marks, |data|, false)) == WithTotal(Passed(0, s.marks, false), |data|)
            && (s.result.Ok? ==> bytes == |data|)
            && (s.result.Err? && s.result.error.Rejected? ==>
                  && MapError(s.result.error, Last(0, s.marks)).transferred == bytes
                  && (s.result.error.stage == ConnectStage ==> bytes == 0)
                  && (s.result.error.stage == DisconnectStage ==> bytes == |data|))
  {
    hide SessionFrom, DeltaEvents, Advances, Nondecreasing, ChunkBytes, ChunkCount, Last, ProgressOf, Passed, WithTotal;
    var s := SessionFrom(name, data, input, room, torn);
    DeltasTelescope(0, s.marks, |data|, false);
    ReportsPassedOn(0, s.marks, |data|, false);
    SessionReports(name, data, input, room, torn);
    NothingReported();
  }

  /** How errors are reported, with the response code in two upper-case digits. */
  lemma ErrorsMapped(prev: nat, stage: Stage, code: byte, what: string)
    ensures MapError(Rejected(stage, code), prev)
         == TransferFailed(prev, "OBEX rejected (0x" + [UPPER[code / 16], UPPER[code % 16]] + ")")
    ensures MapError(Io, prev).Backend? && MapError(Malformed(what), prev).Backend?
  {
  }

  lemma MaxAgreed(input: seq<byte>)
    ensures forall m: nat :: Offers(input, m) ==>
              ReadFrom(input).Got? && Negotiated(ReadFrom(input).response) == Min(8192, Max(m, 255))
    ensures OffersNothing(input) ==> ReadFrom(input).Got? && Negotiated(ReadFrom(input).response) == 255
  {
    hide ReadFrom, PeerMax, Offers, OffersNothing;
    OfferRead(input);
  }

  /** What is left of a packet sequence once only the first `k` packets and part of the next are sent. */
  lemma PartOnWire(plan: seq<seq<byte>>, x: Exchanged, room: nat, torn: nat)
    requires x.acked <= x.written <= |plan| && (x.acked == room ==> x.written == room)
    ensures OnWire(plan, x, room, torn) <= Concat(plan)
  {
    hide Concat;
    var k := x.written;
    if x.acked == room && room < |plan| {
      PartOfNext(plan, k, Min(torn, |plan[k]|));
    } else {
      assert plan == plan[..k] + plan[k..];
      ConcatSplit(plan[..k], plan[k..]);
      assert Concat(plan[..k]) + [] == Concat(plan[..k]);
    }
  }

  lemma PartOfNext(plan: seq<seq<byte>>, k: nat, n: nat)
    requires k < |plan| && n <= |plan[k]|
    ensures Concat(plan[..k]) + plan[k][..n] <= Concat(plan)
  {
    hide Concat;
    assert plan == plan[..k] + ([plan[k]] + plan[k + 1..]);
    ConcatSplit(plan[..k], [plan[k]] + plan[k + 1..]);
    ConcatCons(plan[k], plan[k + 1..]);
    PrefixOfNext(Concat(plan[..k]), plan[k], Concat(plan[k + 1..]), n);
  }

  lemma PrefixOfNext(a: seq<byte>, p: seq<byte>, b: seq<byte>, n: nat)
    requires n <= |p|
    ensures a + p[..n] <= a + (p + b)
  {
  }

  lemma {:induction false} ConcatSplit(a: seq<seq<byte>>, b: seq<seq<byte>>)
    ensures Concat(a + b) == Concat(a) + Concat(b)
  {
    if a == [] {
      assert a + b == b;
    } else {
      assert (a + b)[1..] == a[1..] + b;
      ConcatSplit(a[1..], b);
    }
  }

  /** Once CONNECT is accepted, a session in which some packet is not acknowledged sends no more than
      CONNECT and the packets of the plan: DISCONNECT follows only a complete PUT. */
  lemma UnfinishedSession(name: string, data: seq<byte>, input: seq<byte>, room: nat, torn: nat)
    requires room > 0 && ReadFrom(input).Got? && ReadFrom(input).response.code == 0xA0
    ensures var max := Negotiated(ReadFrom(input).response);
            var plan := Plan(NamePayload(name), data, max, 0);
            var x := Exchange(plan, ReadFrom(input).rest, room - 1);
            var s := SessionFrom(name, data, input, room, torn);
            && |s.marks| == x.acked
            && (x.acked < |plan| ==> s.result.Err? && s.wire <= [0x80, 0, 7, 0x10, 0, 0x20, 0] + Concat(plan))
  {
    hide Exchange, Plan, Marks, NamePayload, ReadFrom, PeerMax, Concat, OnWire, Transcript, ReadFrom;
    var max := Negotiated(ReadFrom(input).response);
    var plan := Plan(NamePayload(name), data, max, 0);
    var x := Exchange(plan, ReadFrom(input).rest, room - 1);
    var rs, rest := LockStep(plan, ReadFrom(input).rest, room - 1);
    PartOnWire(plan, x, room - 1, torn);
  }

  /** A session whose CONNECT is not accepted sends nothing but CONNECT, and reports why. */
  lemma UnconnectedSession(name: string, data: seq<byte>, input: seq<byte>, room: nat, torn: nat)
    requires !(room > 0 && ReadFrom(input).Got? && ReadFrom(input).response.code == 0xA0)
    ensures var s := SessionFrom(name, data, input, room, torn);
            && s.result.Err? && s.marks == [] && s.wire <= [0x80, 0, 7, 0x10, 0, 0x20, 0]
            && (room > 0 && ReadFrom(input).Got? ==>
                  s.result.error == Rejected(ConnectStage, ReadFrom(input).response.code))
  {
    hide ReadFrom, Exchange, Plan, Marks, NamePayload;
  }

  /** A session that succeeds has put CONNECT, every packet of the plan and DISCONNECT on the wire,
      nothing else, the plan being for the maximum agreed on; and what the receiver makes of the packets is the file under its name exactly
      when the name has at most 32759 UTF-16 units and the file is shorter than 4 GiB. */
  lemma SuccessfulSession(name: string, data: seq<byte>, input: seq<byte>, room: nat, torn: nat) returns (max: nat)
    requires SessionFrom(name, data, input, room, torn).result.Ok?
    ensures 255 <= max <= OUR_MAX_PACKET
    ensures (forall m: nat :: Offers(input, m) ==> max == Min(8192, Max(m, 255))) && (OffersNothing(input) ==> max == 255)
    ensures SessionFrom(name, data, input, room, torn).wire
         == [0x80, 0, 7, 0x10, 0, 0x20, 0] + Concat(Plan(NamePayload(name), data, max, 0)) + [0x81, 0, 3]
    ensures Delivers(NamePayload(name), data, max) && DecodeName(NamePayload(name)) == Some(name)
       <==> |EncodeUnits(name)| <= 32759 && |data| < 0x1_0000_0000
  {
    hide Exchange, Plan, Marks, NamePayload, ReadFrom, PeerMax, Concat, Delivers, DecodeName, EncodeUnits, Transcript, Offers,
         OffersNothing;
    MaxAgreed(input);
    max := Negotiated(ReadFrom(input).response);
    var plan := Plan(NamePayload(name), data, max, 0);
    var rs, rest := LockStep(plan, ReadFrom(input).rest, room - 1);
    assert plan[..|plan|] == plan && Concat(plan) + [] == Concat(plan);
    FileDeliveredIff(name, data, max);
  }
}
