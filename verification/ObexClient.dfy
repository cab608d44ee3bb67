/** The OBEX Object Push client over a byte transport: CONNECT, a chunked PUT and DISCONNECT.
    Each method is proved against a function of what the peer will say. */
module ObexClient {
  import opened Bytes
  import opened Utf16
  import opened ObexWire
  import opened ObexPlan

  datatype Stage = ConnectStage | PutStage | DisconnectStage

  datatype ObexError = Io | Rejected(stage: Stage, code: byte) | Malformed(what: string)

  type Outcome = Result<(), ObexError>

  // ---------------------------------------------------------------- responses

  datatype Response = Response(code: byte, body: seq<byte>)

  datatype ReadResult = Got(response: Response, rest: seq<byte>) | Failed(error: ObexError, rest: seq<byte>)

  /** Reading one response from what the peer has still to say. A read past the end consumes
      whatever was left. */
  function ReadFrom(input: seq<byte>): ReadResult {
    if |input| < 3 then Failed(Io, [])
    else
      var len := FromBe16(input[1..3]);
      if len < 3 then Failed(Malformed("length < 3"), input[3..])
      else if len > |input| then Failed(Io, [])
      else Got(Response(input[0], input[3..len]), input[len..])
  }

  /** A response as the peer puts it on the wire. */
  function ResponseBytes(r: Response): seq<byte> {
    Framed(r.code, r.body)
  }

  predicate Sendable(r: Response) {
    3 + |r.body| < 65536
  }

  /** Reading succeeds exactly when the input starts with one complete framed response, and then
      consumes that response and nothing more. */
  lemma ReadExactlyOne(input: seq<byte>, r: Response, rest: seq<byte>)
    ensures ReadFrom(input) == Got(r, rest) <==> Sendable(r) && input == ResponseBytes(r) + rest
  {
    if Sendable(r) && input == ResponseBytes(r) + rest {
      Be16Truncates(3 + |r.body|);
      assert input[1..3] == Be16(3 + |r.body|);
      assert input[3..3 + |r.body|] == r.body && input[3 + |r.body|..] == rest;
    }
    if ReadFrom(input) == Got(r, rest) {
      var len := FromBe16(input[1..3]);
      LengthBytes(input[1..3]);
      assert input == [input[0]] + input[1..3] + input[3..len] + input[len..];
    }
  }

  /** And when it fails: too few bytes for a head or for the length announced is an I/O error that
      leaves nothing, a length that does not cover the head is malformed and leaves what follows. */
  lemma ReadFails(input: seq<byte>)
    ensures |input| < 3 ==> ReadFrom(input) == Failed(Io, [])
    ensures |input| >= 3 ==>
              var hi: int, lo: int := input[1], input[2];
              var len := 256 * hi + lo;
              && (len < 3 ==> ReadFrom(input) == Failed(Malformed("length < 3"), input[3..]))
              && (len > |input| ==> ReadFrom(input) == Failed(Io, []))
              && (3 <= len <= |input| ==> ReadFrom(input) == Got(Response(input[0], input[3..len]), input[len..]))
  {
  }

  lemma LengthBytes(b: seq<byte>)
    requires |b| == 2
    ensures Be16(FromBe16(b)) == b
  {
    var hi: int, lo: int := b[0], b[1];
    assert FromBe16(b) / 256 == hi && FromBe16(b) % 256 == lo;
  }

  // ---------------------------------------------------------------- the exchange

  /** One request: `written` is one if the packet went out, `rest` what the peer has still to say. */
  datatype Sent = Sent(outcome: Outcome, written: nat, rest: seq<byte>)

  /** Writing one packet and waiting for the response `expected`. `room` is how many more packets
      the link will carry before a write fails. */
  function Request(stage: Stage, expected: byte, input: seq<byte>, room: nat): (s: Sent)
    ensures s.written <= 1 && (s.written == 0 <==> room == 0) && (s.outcome.Ok? ==> s.written == 1)
  {
    if room == 0 then Sent(Err(Io), 0, input)
    else match ReadFrom(input)
      case Failed(e, rest) => Sent(Err(e), 1, rest)
      case Got(r, rest) => Sent(if r.code == expected then Ok(()) else Err(Rejected(stage, r.code)), 1, rest)
  }

  datatype Exchanged = Exchanged(outcome: Outcome, written: nat, acked: nat, rest: seq<byte>)

  /** The response that acknowledges a packet with `left` packets to go, itself included. */
  function Expected(left: nat): byte {
    if left == 1 then RESP_SUCCESS else RESP_CONTINUE
  }

  /** Sending `plan` packet by packet, waiting for the right response to each. */
  function Exchange(plan: seq<seq<byte>>, input: seq<byte>, room: nat): (x: Exchanged)
    ensures x.acked <= x.written <= |plan| && x.written <= room
    decreases |plan|
  {
    if plan == [] then Exchanged(Ok(()), 0, 0, input)
    else
      var s := Request(PutStage, Expected(|plan|), input, room);
      if s.outcome.Err? then Exchanged(s.outcome, s.written, 0, s.rest)
      else
        var x := Exchange(plan[1..], s.rest, room - 1);
        x.(written := 1 + x.written, acked := 1 + x.acked)
  }

  lemma ExchangeStep(plan: seq<seq<byte>>, input: seq<byte>, room: nat)
    requires plan != []
    ensures var s := Request(PutStage, Expected(|plan|), input, room);
            var x := Exchange(plan, input, room);
            && (s.outcome.Err? ==> x == Exchanged(s.outcome, s.written, 0, s.rest))
            && (s.outcome.Ok? && |plan| == 1 ==> x == Exchanged(s.outcome, 1, 1, s.rest))
            && (s.outcome.Ok? ==>
                  var y := Exchange(plan[1..], s.rest, room - 1);
                  x == y.(written := 1 + y.written, acked := 1 + y.acked))
  {
  }

  /** The responses with these codes and bodies, back to back. */
  function Replies(rs: seq<Response>): seq<byte> {
    if rs == [] then [] else ResponseBytes(rs[0]) + Replies(rs[1..])
  }

  /** `rs` acknowledges the first `|rs|` packets of a plan of `n`: CONTINUE for every packet but
      the last, SUCCESS for the last. */
  predicate Acknowledges(rs: seq<Response>, n: nat) {
    && |rs| <= n
    && forall i :: 0 <= i < |rs| ==>
         Sendable(rs[i]) && rs[i].code == (if i == n - 1 then 0xA0 else 0x90)
  }

  /** The peer's input is acknowledgements of the first `|rs|` packets followed by `rest`. */
  predicate Transcript(input: seq<byte>, rs: seq<Response>, rest: seq<byte>, n: nat) {
    Acknowledges(rs, n) && input == Replies(rs) + rest
  }

  /** Why an exchange of `n` packets ended after `acked` acknowledgements, when the peer has
      `rest` still to say at that point. */
  predicate EndsBecause(x: Exchanged, n: nat, rest: seq<byte>, room: nat) {
    if x.acked == n then x.outcome == Ok(()) && x.written == n && x.rest == rest
    else if room == x.acked then x.outcome == Err(Io) && x.written == x.acked && x.rest == rest
    else
      && x.written == x.acked + 1
      && match ReadFrom(rest)
         case Failed(e, after) => x.outcome == Err(e) && x.rest == after
         case Got(r, after) =>
           && r.code != (if x.acked == n - 1 then 0xA0 else 0x90)
           && x.outcome == Err(Rejected(PutStage, r.code)) && x.rest == after
  }

  lemma AcknowledgesCons(r: Response, rs: seq<Response>, n: nat)
    requires Acknowledges(rs, n) && Sendable(r) && r.code == (if n == 0 then RESP_SUCCESS else RESP_CONTINUE)
    ensures Acknowledges([r] + rs, n + 1)
    ensures Replies([r] + rs) == ResponseBytes(r) + Replies(rs)
  {
    assert ([r] + rs)[1..] == rs;
  }

  lemma TranscriptCons(input: seq<byte>, r: Response, after: seq<byte>, rs: seq<Response>, rest: seq<byte>, n: nat)
    requires Transcript(after, rs, rest, n) && ReadFrom(input) == Got(r, after)
    requires r.code == (if n == 0 then RESP_SUCCESS else RESP_CONTINUE)
    ensures Transcript(input, [r] + rs, rest, n + 1)
  {
    ReadExactlyOne(input, r, after);
    AcknowledgesCons(r, rs, n);
    assert ResponseBytes(r) + (Replies(rs) + rest) == ResponseBytes(r) + Replies(rs) + rest;
  }

  /** Lock step: the peer's input begins with an acknowledgement of each acknowledged packet, at
      most one further packet was written, and what came next explains the outcome. */
  lemma {:induction false} LockStep(plan: seq<seq<byte>>, input: seq<byte>, room: nat)
    returns (rs: seq<Response>, rest: seq<byte>)
    ensures var x := Exchange(plan, input, room);
            && |rs| == x.acked
            && Transcript(input, rs, rest, |plan|)
            && EndsBecause(x, |plan|, rest, room)
    decreases |plan|
  {
    hide ResponseBytes, FromBe16, Acknowledges, Exchange, Request, Transcript, EndsBecause, ReadFrom;
    if plan != [] && Request(PutStage, Expected(|plan|), input, room).outcome.Ok? {
      ExchangeStep(plan, input, room);
      RequestOk(|plan|, input, room);
      var r, after := ReadFrom(input).response, ReadFrom(input).rest;
      rs, rest := LockStep(plan[1..], after, room - 1);
      TranscriptCons(input, r, after, rs, rest, |plan| - 1);
      EndsBecauseStep(Exchange(plan, input, room), Exchange(plan[1..], after, room - 1), |plan|, rest, room);
      rs := [r] + rs;
    } else {
      rs, rest := [], input;
      StopsHere(plan, input, room);
    }
  }

  /** A request of the PUT phase succeeds when it goes out and the right response comes back. */
  lemma RequestOk(left: nat, input: seq<byte>, room: nat)
    requires Request(PutStage, Expected(left), input, room).outcome.Ok?
    ensures room > 0 && ReadFrom(input).Got? && ReadFrom(input).response.code == Expected(left)
    ensures Request(PutStage, Expected(left), input, room) == Sent(Ok(()), 1, ReadFrom(input).rest)
  {
    hide ReadFrom;
  }

  /** An exchange that gets no further: nothing is acknowledged. */
  lemma StopsHere(plan: seq<seq<byte>>, input: seq<byte>, room: nat)
    requires plan == [] || Request(PutStage, Expected(|plan|), input, room).outcome.Err?
    ensures Exchange(plan, input, room).acked == 0 && Transcript(input, [], input, |plan|)
    ensures EndsBecause(Exchange(plan, input, room), |plan|, input, room)
  {
    hide ReadFrom, ResponseBytes;
    assert Replies([]) + input == input;
  }

  lemma EndsBecauseStep(x: Exchanged, y: Exchanged, n: nat, rest: seq<byte>, room: nat)
    requires n > 0 && room > 0 && y.acked <= n - 1
    requires x == y.(written := 1 + y.written, acked := 1 + y.acked)
    requires EndsBecause(y, n - 1, rest, room - 1)
    ensures EndsBecause(x, n, rest, room)
  {
  }

  /** Conversely, a peer that acknowledges every packet makes the exchange succeed. */
  lemma {:induction false} AcknowledgedSucceeds(plan: seq<seq<byte>>, rs: seq<Response>, rest: seq<byte>, room: nat)
    requires |rs| == |plan| <= room && Acknowledges(rs, |plan|)
    ensures Exchange(plan, Replies(rs) + rest, room) == Exchanged(Ok(()), |plan|, |plan|, rest)
    decreases |plan|
  {
    if plan != [] {
      var input := Replies(rs) + rest;
      var after := Replies(rs[1..]) + rest;
      assert input == ResponseBytes(rs[0]) + after;
      ReadExactlyOne(input, rs[0], after);
      AcknowledgedSucceeds(plan[1..], rs[1..], rest, room - 1);
    } else {
      assert Replies(rs) + rest == rest;
    }
  }

  /** A PUT succeeds if and only if the link carries every packet and the peer says CONTINUE to
      each packet but the last and SUCCESS to the last; it then leaves the rest unread. */
  lemma SucceedsIff(plan: seq<seq<byte>>, input: seq<byte>, room: nat, rest: seq<byte>)
    ensures Exchange(plan, input, room) == Exchanged(Ok(()), |plan|, |plan|, rest)
       <==> |plan| <= room && exists rs :: |rs| == |plan| && Transcript(input, rs, rest, |plan|)
  {
    if Exchange(plan, input, room) == Exchanged(Ok(()), |plan|, |plan|, rest) {
      var rs, after := LockStep(plan, input, room);
      assert Transcript(input, rs, rest, |plan|);
    }
    if |plan| <= room && exists rs :: |rs| == |plan| && Transcript(input, rs, rest, |plan|) {
      var rs :| |rs| == |plan| && Transcript(input, rs, rest, |plan|);
      AcknowledgedSucceeds(plan, rs, rest, room);
    }
  }

  // ---------------------------------------------------------------- the transport

  /** What gets out of a packet whose write fails. */
  function Torn(packet: seq<byte>, torn: nat): seq<byte> {
    packet[..Min(torn, |packet|)]
  }

  /** A byte pipe to a peer. */
  class Transport {
    var input: seq<byte>  // what the peer has still to say
    var sent: seq<byte>  // everything written so far
    var room: nat  // packets the link will still carry
    const torn: nat  // bytes of the next one that get out before the write fails

    constructor (input: seq<byte>, room: nat, torn: nat)
      ensures this.input == input && this.room == room && this.torn == torn && sent == []
    {
      this.input, this.room, this.torn, sent := input, room, torn, [];
    }

    /** `write_all` and `flush` of one packet. A write that fails may have sent part of it. */
    method WriteAll(packet: seq<byte>) returns (ok: bool)
      modifies this
      ensures input == old(input) && ok == (old(room) > 0)
      ensures sent == old(sent) + (if ok then packet else Torn(packet, torn))
      ensures room == (if ok then old(room) - 1 else 0)
    {
      ok := room > 0;
      if ok {
        sent, room := sent + packet, room - 1;
      } else {
        sent := sent + Torn(packet, torn);
      }
    }

    /** `read_exact`: all `n` bytes or an end-of-file error. */
    method ReadExact(n: nat) returns (r: Option<seq<byte>>)
      modifies this
      ensures sent == old(sent) && room == old(room)
      ensures r == (if n <= |old(input)| then Some(old(input)[..n]) else None)
      ensures input == (if n <= |old(input)| then old(input)[n..] else [])
    {
      if n <= |input| {
        r := Some(input[..n]);
        input := input[n..];
      } else {
        r := None;
        input := [];
      }
    }
  }

  /** Reads exactly one response packet: its three-byte head, then as many bytes as the head
      announces. */
  method ReadResponse(io: Transport) returns (r: Result<Response, ObexError>)
    modifies io
    ensures io.sent == old(io.sent) && io.room == old(io.room)
    ensures io.input == ReadFrom(old(io.input)).rest
    ensures r == match ReadFrom(old(io.input)) case Got(resp, _) => Ok(resp) case Failed(e, _) => Err(e)
  {
    var head := io.ReadExact(3);
    if head.None? {
      return Err(Io);
    }
    var code := head.value[0];
    var len := FromBe16([head.value[1], head.value[2]]);
    assert [head.value[1], head.value[2]] == old(io.input)[1..3];
    if len < 3 {
      return Err(Malformed("length < 3"));
    }
    var body := io.ReadExact(len - 3);
    if body.None? {
      return Err(Io);
    }
    assert old(io.input)[3..][..len - 3] == old(io.input)[3..len];
    assert old(io.input)[3..][len - 3..] == old(io.input)[len..];
    return Ok(Response(code, body.value));
  }

  /** Back-patches the length field of a packet. */
  method PutLen(packet: array<byte>)
    requires packet.Length >= 3
    modifies packet
    ensures packet[..] == [old(packet[0])] + Be16(packet.Length) + old(packet[3..])
  {
    var len := Be16(packet.Length);
    packet[1], packet[2] := len[0], len[1];
  }

  /** A packet assembled with a blank length field, then patched. */
  method Seal(opcode: byte, content: seq<byte>) returns (packet: seq<byte>)
    ensures packet == Framed(opcode, content)
  {
    var blank := [opcode, 0, 0] + content;
    var buffer := new byte[|blank|](i requires 0 <= i < |blank| => blank[i]);
    assert buffer[..] == blank;
    PutLen(buffer);
    packet := buffer[..];
  }

  /** Writes one packet, reads one response and checks its code. */
  method Ask(io: Transport, packet: seq<byte>, stage: Stage, expected: byte) returns (r: Outcome)
    modifies io
    ensures var s := Request(stage, expected, old(io.input), old(io.room));
            && r == s.outcome && io.input == s.rest && io.room == old(io.room) - s.written
            && io.sent == old(io.sent) + (if s.written == 1 then packet else Torn(packet, io.torn))
  {
    var ok := io.WriteAll(packet);
    if !ok {
      return Err(Io);
    }
    var resp := ReadResponse(io);
    if resp.Err? {
      return Err(resp.error);
    }
    if resp.value.code != expected {
      return Err(Rejected(stage, resp.value.code));
    }
    return Ok(());
  }

  // ---------------------------------------------------------------- the client

  /** CONNECT: version 1.0, no flags, our maximum packet size. */
  const CONNECT_PACKET: seq<byte> := [OP_CONNECT, 0, 7, OBEX_VERSION, 0, 0x20, 0]

  const DISCONNECT_PACKET: seq<byte> := [OP_DISCONNECT, 0, 3]

  /** The peer's maximum as its CONNECT response states it, 255 where it is absent or smaller. */
  function PeerMax(r: Response): nat {
    Max(if |r.body| >= 4 then FromBe16(r.body[2..4]) else 255, 255)
  }

  /** The peer accepts CONNECT and states a maximum packet size of `m`. */
  ghost predicate Offers(input: seq<byte>, m: nat) {
    exists v: byte, f: byte, extra: seq<byte>, rest: seq<byte> ::
      Offering(input, m, v, f, extra, rest)
  }

  predicate Offering(input: seq<byte>, m: nat, v: byte, f: byte, extra: seq<byte>, rest: seq<byte>) {
    m < 65536 && 7 + |extra| < 65536 && input == Framed(0xA0, [v, f, m / 256, m % 256] + extra) + rest
  }

  /** The peer accepts CONNECT in a response too short to state a maximum. */
  ghost predicate OffersNothing(input: seq<byte>) {
    exists body: seq<byte>, rest: seq<byte> :: |body| < 4 && input == Framed(0xA0, body) + rest
  }

  lemma OfferRead(input: seq<byte>)
    ensures forall m: nat :: Offers(input, m) ==>
              && ReadFrom(input).Got? && ReadFrom(input).response.code == 0xA0
              && PeerMax(ReadFrom(input).response) == Max(m, 255)
    ensures OffersNothing(input) ==>
              && ReadFrom(input).Got? && ReadFrom(input).response.code == 0xA0
              && PeerMax(ReadFrom(input).response) == 255
  {
    hide ReadFrom, Framed;
    forall m: nat | Offers(input, m)
      ensures ReadFrom(input).Got? && ReadFrom(input).response.code == 0xA0
      ensures PeerMax(ReadFrom(input).response) == Max(m, 255)
    {
      var v: byte, f: byte, extra: seq<byte>, rest: seq<byte> :| Offering(input, m, v, f, extra, rest);
      var r := Response(0xA0, [v, f, m / 256, m % 256] + extra);
      ReadExactlyOne(input, r, rest);
      assert r.body[2..4] == [m / 256, m % 256];
    }
    if OffersNothing(input) {
      var body: seq<byte>, rest: seq<byte> :| |body| < 4 && input == Framed(0xA0, body) + rest;
      ReadExactlyOne(input, Response(0xA0, body), rest);
    }
  }

  class ObexOppClient {
    var io: Transport
    var peerMaxPacket: nat

    constructor (io: Transport, peerMaxPacket: nat)
      ensures this.io == io && this.peerMaxPacket == peerMaxPacket
    {
      this.io, this.peerMaxPacket := io, peerMaxPacket;
    }

    ghost predicate Valid()
      reads this
    {
      255 <= peerMaxPacket < 65536
    }

    /** The negotiated maximum: whatever the peer said, it lies between 255 and 8192. */
    function MaxPacket(): (max: nat)
      requires Valid()
      reads this
      ensures 255 <= max <= OUR_MAX_PACKET
    {
      Min(OUR_MAX_PACKET, peerMaxPacket)
    }

    /** The CONNECT handshake. */
    static method Connect(io: Transport) returns (r: Result<ObexOppClient, ObexError>)
      modifies io
      ensures var packet := [0x80, 0, 7, 0x10, 0, 0x20, 0];
              io.sent == old(io.sent) + if old(io.room) > 0 then packet else Torn(packet, io.torn)
      ensures io.room == (if old(io.room) > 0 then old(io.room) - 1 else 0)
      ensures io.input == (if old(io.room) > 0 then ReadFrom(old(io.input)).rest else old(io.input))
      ensures old(io.room) == 0 ==> r == Err(Io)
      ensures old(io.room) > 0 ==>
                match ReadFrom(old(io.input))
                case Failed(e, _) => r == Err(e)
                case Got(resp, _) =>
                  if resp.code != 0xA0 then r == Err(Rejected(ConnectStage, resp.code))
                  else r.Ok? && fresh(r.value) && r.value.Valid() && r.value.io == io
                       && r.value.peerMaxPacket == PeerMax(resp)
      ensures old(io.room) > 0 ==>
                && (forall m: nat :: Offers(old(io.input), m) ==>
                      r.Ok? && r.value.Valid() && r.value.MaxPacket() == Min(8192, Max(m, 255)))
                && (OffersNothing(old(io.input)) ==> r.Ok? && r.value.Valid() && r.value.MaxPacket() == 255)
    {
      OfferRead(io.input);
      var packet := Seal(OP_CONNECT, [OBEX_VERSION, 0] + Be16(OUR_MAX_PACKET));
      assert packet == CONNECT_PACKET;
      var ok := io.WriteAll(packet);
      if !ok {
        return Err(Io);
      }
      var resp := ReadResponse(io);
      if resp.Err? {
        return Err(resp.error);
      }
      if resp.value.code != RESP_SUCCESS {
        return Err(Rejected(ConnectStage, resp.value.code));
      }
      var body := resp.value.body;
      var peer := if |body| >= 4 then FromBe16(body[2..4]) else 255;
      var client := new ObexOppClient(io, Max(peer, 255));
      return Ok(client);
    }

    /** One PUT request packet, header by header. */
    method PutRequest(namePayload: seq<byte>, data: seq<byte>, ghost max: nat, offset: nat, take: nat,
                      isLast: bool, first: bool)
      returns (packet: seq<byte>)
      requires offset <= |data| && first == (offset == 0)
      requires take == ChunkLen(|namePayload|, |data|, max, offset)
      requires isLast == IsLast(|namePayload|, |data|, max, offset)
      ensures packet == PutPacket(namePayload, data, max, offset)
    {
      hide ChunkLen, IsLast, Be16, Be32, Framed;
      var content: seq<byte> := [];
      if first {
        content := content + [HI_NAME];
        assert content == [HI_NAME];
        content := content + Be16(3 + |namePayload|);
        content := content + namePayload;
        content := content + ([HI_LENGTH] + Be32(|data|));
      }
      assert content == if offset == 0 then Preamble(namePayload, |data|) else [];
      var hi := if isLast then HI_END_OF_BODY else HI_BODY;
      content := content + ([hi] + Be16(3 + take) + data[offset..offset + take]);
      assert |data[offset..offset + take]| == take;
      assert content == Content(namePayload, data, max, offset);
      packet := Seal(if isLast then OP_PUT_FINAL else OP_PUT, content);
    }

    /** Pushes one object; `progress` is what the progress callback was told, in order. */
    method PutFile(name: string, data: seq<byte>) returns (r: Outcome, progress: seq<nat>)
      requires Valid()
      modifies io
      ensures var plan := Plan(NamePayload(name), data, MaxPacket(), 0);
              var x := Exchange(plan, old(io.input), old(io.room));
              && r == x.outcome
              && x.written <= |plan|
              && io.sent == old(io.sent) + OnWire(plan, x, old(io.room), io.torn)
              && io.input == x.rest && io.room == old(io.room) - x.written
              && progress == Marks(|NamePayload(name)|, |data|, MaxPacket(), 0, x.acked)
    {
      hide PutRun, PutPacket, Plan, Exchange, Concat, Marks;
      var namePayload := NameToUtf16(name);
      var max := MaxPacket();
      var bodyOverhead := 3 + 3;
      var firstExtra := (3 + |namePayload|) + 5;
      var sent: nat := 0;
      var total := |data|;
      var offset: nat := 0;
      var first := true;
      progress := [];

      ghost var torn := io.torn;
      ghost var run := PutRun(namePayload, data, max, 0, io.input, io.room, torn, io.sent, []);
      r := Ok(());
      while true
        invariant first <==> offset == 0
        invariant offset <= total && sent == offset
        invariant run == PutRun(namePayload, data, max, offset, io.input, io.room, torn, io.sent, progress)
        decreases total - offset
      {
        var headerBudget := if first then bodyOverhead + firstExtra else bodyOverhead;
        var chunkCap := Max(if max >= headerBudget then max - headerBudget else 0, 1);
        var remaining := total - offset;
        var take := Min(remaining, chunkCap);
        var isLast := offset + take >= total;
        var packet := PutRequest(namePayload, data, max, offset, take, isLast, first);
        PutRunStep(namePayload, data, max, offset, io.input, io.room, torn, io.sent, progress);
        r := Ask(io, packet, PutStage, if isLast then RESP_SUCCESS else RESP_CONTINUE);
        if r.Err? {
          break;
        }
        offset := offset + take;
        sent := sent + take;
        progress := progress + [sent];
        first := false;
        if isLast {
          break;
        }
      }
      assert run == Run(r, io.input, io.room, io.sent, progress);
      RunIsExchange(namePayload, data, max, 0, old(io.input), old(io.room), torn, old(io.sent), []);
    }

    /** DISCONNECT. The source consumes the client here. */
    method Disconnect() returns (r: Outcome)
      modifies io
      ensures var s := Request(DisconnectStage, RESP_SUCCESS, old(io.input), old(io.room));
              && r == s.outcome && io.input == s.rest && io.room == old(io.room) - s.written
              && io.sent == old(io.sent) + (if s.written == 1 then [0x81, 0, 3] else Torn([0x81, 0, 3], io.torn))
    {
      r := Ask(io, DISCONNECT_PACKET, DisconnectStage, RESP_SUCCESS);
    }
  }

  // ---------------------------------------------------------------- what the peer ends up with

  /** A fully acknowledged PUT hands the peer the file and its name, exactly when the name has at
      most 32759 UTF-16 units and the file is shorter than 4 GiB. */
  lemma FileDeliveredIff(name: string, data: seq<byte>, max: nat)
    requires 255 <= max <= OUR_MAX_PACKET
    ensures Delivers(NamePayload(name), data, max) && DecodeName(NamePayload(name)) == Some(name)
       <==> |EncodeUnits(name)| <= 32759 && |data| < 0x1_0000_0000
  {
    hide Delivers, EncodeUnits, DecodeName;
    NameRoundTrip(name);
    PutRoundTripIff(NamePayload(name), data, max);
  }

  /** Whatever the peer says, and however the call ends: the last progress value is the length of
      the prefix of the file that the acknowledged packets carry. A receiver reads that prefix from
      them if the name has at most 32759 UTF-16 units. */
  lemma ProgressIsAcknowledgedPrefix(name: string, data: seq<byte>, max: nat, input: seq<byte>, room: nat)
    returns (chunks: seq<seq<byte>>)
    requires 255 <= max <= OUR_MAX_PACKET
    ensures var plan := Plan(NamePayload(name), data, max, 0);
            var x := Exchange(plan, input, room);
            var marks := Marks(|NamePayload(name)|, |data|, max, 0, x.acked);
            var k := if marks == [] then 0 else marks[|marks| - 1];
            && k <= |data|
            && CarryAll(plan[..x.acked], chunks, data[..k])
            && (|EncodeUnits(name)| <= 32759 ==> Gathers(EMPTY_INBOX, Concat(plan[..x.acked]), x.acked, data[..k]))
            && (x.outcome.Ok? <==> x.acked == |plan|)
            && (x.outcome.Ok? ==> k == |data|)
  {
    hide EncodeUnits, Plan, Exchange, Gathers, Concat, Reach, Marks, ParseStream, CarryAll;
    var p := NamePayload(name);
    var plan := Plan(p, data, max, 0);
    var x := Exchange(plan, input, room);
    chunks := PacketsCarry(p, data, max, 0, x.acked);
    assert data[0..Reach(|p|, |data|, max, 0, x.acked)] == data[..Reach(|p|, |data|, max, 0, x.acked)];
    if |EncodeUnits(name)| <= 32759 {
      ShortNameFits(|p|, |data|, max);
      GatherPrefix(p, data, max, 0, x.acked);
    }
    LastMark(|p|, |data|, max, x.acked);
    ReachAll(p, data, max, 0);
    var rs, rest := LockStep(plan, input, room);
  }

  /** A name of 32760 letters and an empty file: the peer acknowledges the one packet, `put_file`
      succeeds, and the receiver does not get the file. */
  lemma LongNameExample()
    ensures var name := seq(32760, _ => 'a');
            && Exchange(Plan(NamePayload(name), [], OUR_MAX_PACKET, 0), [RESP_SUCCESS, 0, 3], 1).outcome == Ok(())
            && !(Delivers(NamePayload(name), [], OUR_MAX_PACKET) && DecodeName(NamePayload(name)) == Some(name))
  {
    hide EncodeUnits, NamePayload, Delivers, DecodeName, Exchange, Plan;
    var name := seq(32760, _ => 'a');
    LettersAreUnits(name);
    FileDeliveredIff(name, [], OUR_MAX_PACKET);
    var plan := Plan(NamePayload(name), [], OUR_MAX_PACKET, 0);
    PlanHead(NamePayload(name), [], OUR_MAX_PACKET, 0);
    var rs := [Response(RESP_SUCCESS, [])];
    assert Replies(rs) + [] == [RESP_SUCCESS, 0, 3] by {
      assert rs[1..] == [];
    }
    AcknowledgedSucceeds(plan, rs, [], 1);
  }

  lemma {:induction false} LettersAreUnits(name: string)
    requires forall i :: 0 <= i < |name| ==> name[i] == 'a'
    ensures |EncodeUnits(name)| == |name|
  {
    if name != [] {
      LettersAreUnits(name[1..]);
    }
  }

  lemma ShortNameFits(nameLen: nat, total: nat, max: nat)
    requires nameLen <= 65520 && max <= OUR_MAX_PACKET
    ensures Fits(nameLen, total, max)
  {
  }

  lemma LastMark(nameLen: nat, total: nat, max: nat, k: nat)
    ensures var marks := Marks(nameLen, total, max, 0, k);
            Reach(nameLen, total, max, 0, k) == if k == 0 then 0 else marks[k - 1]
  {
    if k > 0 {
      MarksAreReaches(nameLen, total, max, 0, k, k - 1);
    }
  }

  // ---------------------------------------------------------------- put_file as a run

  /** How a `put_file` call ends: its outcome, what the peer has still to say, how many packets
      the link still carries, everything on the wire, and the progress reported. */
  datatype Run = Run(outcome: Outcome, input: seq<byte>, room: nat, wire: seq<byte>, marks: seq<nat>)

  /** The rest of a `put_file` call that has come as far as `offset`. */
  function PutRun(name: seq<byte>, data: seq<byte>, max: nat, offset: nat,
                  input: seq<byte>, room: nat, torn: nat, wire: seq<byte>, marks: seq<nat>): Run
    requires offset <= |data|
    decreases |data| - offset
  {
    var next := offset + ChunkLen(|name|, |data|, max, offset);
    var last := IsLast(|name|, |data|, max, offset);
    var s := Request(PutStage, if last then RESP_SUCCESS else RESP_CONTINUE, input, room);
    var wire' := wire + Sending(PutPacket(name, data, max, offset), s, torn);
    if s.outcome.Err? then Run(s.outcome, s.rest, room - s.written, wire', marks)
    else if last then Run(s.outcome, s.rest, room - 1, wire', marks + [next])
    else PutRun(name, data, max, next, s.rest, room - 1, torn, wire', marks + [next])
  }

  lemma PutRunStep(name: seq<byte>, data: seq<byte>, max: nat, offset: nat,
                   input: seq<byte>, room: nat, torn: nat, wire: seq<byte>, marks: seq<nat>)
    requires offset <= |data|
    ensures var next := offset + ChunkLen(|name|, |data|, max, offset);
            var last := IsLast(|name|, |data|, max, offset);
            var s := Request(PutStage, if last then RESP_SUCCESS else RESP_CONTINUE, input, room);
            var wire' := wire + Sending(PutPacket(name, data, max, offset), s, torn);
            var run := PutRun(name, data, max, offset, input, room, torn, wire, marks);
            && (s.outcome.Err? ==> run == Run(s.outcome, s.rest, room - s.written, wire', marks))
            && (s.outcome.Ok? ==>
                  run == if last then Run(s.outcome, s.rest, room - 1, wire', marks + [next])
                         else PutRun(name, data, max, next, s.rest, room - 1, torn, wire', marks + [next]))
  {
  }

  /** What one request puts on the wire. */
  function Sending(packet: seq<byte>, s: Sent, torn: nat): seq<byte> {
    if s.written == 1 then packet else Torn(packet, torn)
  }

  /** What an exchange puts on the wire: the packets written, and part of the next if its write
      failed. */
  function OnWire(plan: seq<seq<byte>>, x: Exchanged, room: nat, torn: nat): seq<byte>
    requires x.written <= |plan|
  {
    Concat(plan[..x.written]) + if x.acked == room && room < |plan| then Torn(plan[room], torn) else []
  }

  /** The run that goes with an exchange of `plan`. */
  function RunOf(plan: seq<seq<byte>>, x: Exchanged, nameLen: nat, total: nat, max: nat, offset: nat,
                 room: nat, torn: nat, wire: seq<byte>, marks: seq<nat>): Run
    requires x.written <= |plan| && x.written <= room && offset <= total
  {
    Run(x.outcome, x.rest, room - x.written, wire + OnWire(plan, x, room, torn),
        marks + Marks(nameLen, total, max, offset, x.acked))
  }

  /** The run is the exchange of the plan: it writes the packets the exchange writes and reports
      how far the acknowledged ones reach. */
  lemma {:induction false} RunIsExchange(name: seq<byte>, data: seq<byte>, max: nat, offset: nat,
                                         input: seq<byte>, room: nat, torn: nat, wire: seq<byte>, marks: seq<nat>)
    requires offset <= |data|
    ensures PutRun(name, data, max, offset, input, room, torn, wire, marks)
         == RunOf(Plan(name, data, max, offset), Exchange(Plan(name, data, max, offset), input, room),
                  |name|, |data|, max, offset, room, torn, wire, marks)
    decreases |data| - offset
  {
    hide RunOf, PutPacket, Plan, PutRun, ChunkLen, Exchange, Request, IsLast;
    var plan := Plan(name, data, max, offset);
    var next := offset + ChunkLen(|name|, |data|, max, offset);
    PlanHead(name, data, max, offset);
    PutRunStep(name, data, max, offset, input, room, torn, wire, marks);
    ExchangeStep(plan, input, room);
    var s := Request(PutStage, Expected(|plan|), input, room);
    if s.outcome.Err? {
      RunOfEnd(plan, Exchanged(s.outcome, s.written, 0, s.rest), |name|, |data|, max, offset, room, torn, wire, marks);
    } else if |plan| == 1 {
      RunOfEnd(plan, Exchanged(s.outcome, 1, 1, s.rest), |name|, |data|, max, offset, room, torn, wire, marks);
    } else {
      RunIsExchange(name, data, max, next, s.rest, room - 1, torn, wire + plan[0], marks + [next]);
      RunOfCons(plan, Exchange(plan[1..], s.rest, room - 1), |name|, |data|, max, offset, room, torn, wire, marks);
    }
  }

  lemma RunOfEnd(plan: seq<seq<byte>>, x: Exchanged, nameLen: nat, total: nat, max: nat, offset: nat,
                 room: nat, torn: nat, wire: seq<byte>, marks: seq<nat>)
    requires plan != [] && x.acked <= x.written <= 1 && x.written <= room && offset <= total
    requires (x.written == 0 <==> room == 0) && (x.acked == 1 ==> |plan| == 1)
    ensures RunOf(plan, x, nameLen, total, max, offset, room, torn, wire, marks)
         == Run(x.outcome, x.rest, room - x.written, wire + (if x.written == 1 then plan[0] else Torn(plan[0], torn)),
                if x.acked == 1 then marks + [offset + ChunkLen(nameLen, total, max, offset)] else marks)
  {
    var next := offset + ChunkLen(nameLen, total, max, offset);
    assert plan[..0] == [] && plan[..1] == [plan[0]];
    ConcatCons(plan[0], []);
    assert plan[0] + [] == plan[0] && [] + Torn(plan[0], torn) == Torn(plan[0], torn);
    assert Concat(plan[..x.written]) == (if x.written == 1 then plan[0] else []);
    assert Marks(nameLen, total, max, offset, x.acked) == (if x.acked == 1 then [next] else []) by {
      assert x.acked == 1 ==> Marks(nameLen, total, max, offset, x.acked) == [next] + Marks(nameLen, total, max, next, 0);
    }
    assert wire + [] == wire && marks + [] == marks;
  }

  lemma RunOfCons(plan: seq<seq<byte>>, y: Exchanged, nameLen: nat, total: nat, max: nat, offset: nat,
                  room: nat, torn: nat, wire: seq<byte>, marks: seq<nat>)
    requires plan != [] && y.written <= |plan| - 1 && y.written + 1 <= room && offset <= total
    ensures RunOf(plan, y.(written := 1 + y.written, acked := 1 + y.acked), nameLen, total, max, offset, room, torn, wire, marks)
         == RunOf(plan[1..], y, nameLen, total, max, offset + ChunkLen(nameLen, total, max, offset),
                  room - 1, torn, wire + plan[0], marks + [offset + ChunkLen(nameLen, total, max, offset)])
  {
    var next := offset + ChunkLen(nameLen, total, max, offset);
    var tail := plan[1..][..y.written];
    assert plan[..1 + y.written] == [plan[0]] + tail;
    ConcatCons(plan[0], tail);
    var part := if y.acked == room - 1 && room - 1 < |plan| - 1 then Torn(plan[room], torn) else [];
    assert wire + (plan[0] + Concat(tail) + part) == wire + plan[0] + (Concat(tail) + part);
    var later := Marks(nameLen, total, max, next, y.acked);
    assert marks + ([next] + later) == marks + [next] + later;
  }
}
