/** The packets one `put_file` call sends when every one of them is acknowledged, and what a
    receiver makes of them. */
module ObexPlan {
  import opened Bytes
  import opened ObexWire

  /** Packet header and Body header, on every packet. */
  const BODY_OVERHEAD: nat := 6

  /** Body bytes that fit behind the headers of the packet at `offset`; never less than one. */
  function ChunkCap(nameLen: nat, max: nat, offset: nat): (cap: nat)
    ensures cap >= 1
  {
    var budget := if offset == 0 then BODY_OVERHEAD + (3 + nameLen) + 5 else BODY_OVERHEAD;
    Max(if max >= budget then max - budget else 0, 1)
  }

  function ChunkLen(nameLen: nat, total: nat, max: nat, offset: nat): (take: nat)
    requires offset <= total
    ensures offset + take <= total
    ensures offset < total ==> take >= 1
  {
    Min(total - offset, ChunkCap(nameLen, max, offset))
  }

  predicate IsLast(nameLen: nat, total: nat, max: nat, offset: nat)
    requires offset <= total
  {
    offset + ChunkLen(nameLen, total, max, offset) >= total
  }

  /** The Name and Length headers, which only the first packet carries. */
  function Preamble(name: seq<byte>, total: nat): seq<byte> {
    [HI_NAME] + Be16(3 + |name|) + name + ([HI_LENGTH] + Be32(total))
  }

  function BodyHeader(last: bool, chunk: seq<byte>): seq<byte> {
    [if last then HI_END_OF_BODY else HI_BODY] + Be16(3 + |chunk|) + chunk
  }

  /** A packet with its length field filled in behind the opcode. */
  function Framed(opcode: byte, content: seq<byte>): (p: seq<byte>)
    ensures |p| == 3 + |content|
  {
    [opcode] + Be16(3 + |content|) + content
  }

  function Content(name: seq<byte>, data: seq<byte>, max: nat, offset: nat): seq<byte>
    requires offset <= |data|
  {
    (if offset == 0 then Preamble(name, |data|) else [])
    + BodyHeader(IsLast(|name|, |data|, max, offset), data[offset..offset + ChunkLen(|name|, |data|, max, offset)])
  }

  function PutPacket(name: seq<byte>, data: seq<byte>, max: nat, offset: nat): seq<byte>
    requires offset <= |data|
  {
    Framed(if IsLast(|name|, |data|, max, offset) then OP_PUT_FINAL else OP_PUT, Content(name, data, max, offset))
  }

  /** All packets from `offset` to the end. */
  function Plan(name: seq<byte>, data: seq<byte>, max: nat, offset: nat): (ps: seq<seq<byte>>)
    requires offset <= |data|
    ensures |ps| >= 1
    decreases |data| - offset
  {
    var packet := PutPacket(name, data, max, offset);
    if IsLast(|name|, |data|, max, offset) then [packet]
    else [packet] + Plan(name, data, max, offset + ChunkLen(|name|, |data|, max, offset))
  }

  lemma PlanHead(name: seq<byte>, data: seq<byte>, max: nat, offset: nat)
    requires offset <= |data|
    ensures var plan := Plan(name, data, max, offset);
            && plan[0] == PutPacket(name, data, max, offset)
            && (|plan| == 1 <==> IsLast(|name|, |data|, max, offset))
            && (|plan| > 1 ==> plan[1..] == Plan(name, data, max, offset + ChunkLen(|name|, |data|, max, offset)))
  {
  }

  /** The bytes of the first packet: opcode and length, Name header, Length header, body header. */
  lemma FirstPacketLayout(name: seq<byte>, data: seq<byte>, max: nat)
    ensures var take := ChunkLen(|name|, |data|, max, 0);
            var last, size, n := take == |data|, 14 + |name| + take, |data|;
            var names := [0x01] + [(3 + |name|) / 256 % 256, (3 + |name|) % 256] + name;
            var length := [0xC3] + [n / 0x100_0000 % 256, n / 0x1_0000 % 256, n / 256 % 256, n % 256];
            var body := [if last then 0x49 else 0x48] + [(3 + take) / 256 % 256, (3 + take) % 256] + data[..take];
            PutPacket(name, data, max, 0)
              == [if last then 0x82 else 0x02] + [size / 256 % 256, size % 256] + (names + length + body)
  {
    hide ChunkLen, Be16, Be32, Preamble, BodyHeader;
    var take := ChunkLen(|name|, |data|, max, 0);
    var last, size, n := take == |data|, 14 + |name| + take, |data|;
    var chunk := data[..take];
    assert data[0..take] == chunk;
    PreambleBytes(name, n);
    BodyHeaderBytes(last, chunk);
    Be16Bytes(size);
  }

  lemma PreambleBytes(name: seq<byte>, n: nat)
    ensures Preamble(name, n) == [0x01] + [(3 + |name|) / 256 % 256, (3 + |name|) % 256] + name
                                 + ([0xC3] + [n / 0x100_0000 % 256, n / 0x1_0000 % 256, n / 256 % 256, n % 256])
  {
    hide Be32;
    Be32Bytes(n);
  }

  lemma BodyHeaderBytes(last: bool, chunk: seq<byte>)
    ensures BodyHeader(last, chunk)
         == [if last then 0x49 else 0x48] + [(3 + |chunk|) / 256 % 256, (3 + |chunk|) % 256] + chunk
  {
  }

  lemma Be16Bytes(n: nat)
    ensures Be16(n) == [n / 256 % 256, n % 256]
  {
  }

  lemma Be32Bytes(n: nat)
    ensures Be32(n) == [n / 0x100_0000 % 256, n / 0x1_0000 % 256, n / 256 % 256, n % 256]
  {
    assert n / 65536 / 256 == n / 0x100_0000;
  }

  /** The bytes of a later packet: opcode and length, body header. */
  lemma LaterPacketLayout(name: seq<byte>, data: seq<byte>, max: nat, offset: nat)
    requires 0 < offset <= |data|
    ensures var take := ChunkLen(|name|, |data|, max, offset);
            var last, size := offset + take == |data|, 6 + take;
            PutPacket(name, data, max, offset) == [if last then 0x82 else 0x02] + [size / 256 % 256, size % 256]
              + [if last then 0x49 else 0x48] + [(3 + take) / 256 % 256, (3 + take) % 256] + data[offset..offset + take]
  {
    hide ChunkLen;
    var take := ChunkLen(|name|, |data|, max, offset);
    assert |Content(name, data, max, offset)| == 3 + take;
  }

  // ---------------------------------------------------------------- parsing what is sent

  lemma ParseTwoByteHeader(id: byte, payload: seq<byte>, rest: seq<byte>)
    requires id < 128 && 3 + |payload| < 65536
    ensures ParseHeader([id] + Be16(3 + |payload|) + payload + rest)
         == Some((if id < 64 then Text(id, payload) else Octets(id, payload), 3 + |payload|))
  {
    var b := [id] + Be16(3 + |payload|) + payload + rest;
    Be16Truncates(3 + |payload|);
    assert b[1..3] == Be16(3 + |payload|);
    assert b[3..3 + |payload|] == payload;
  }

  lemma ParseQuadHeader(id: byte, v: nat, rest: seq<byte>)
    requires id >= 192
    ensures ParseHeader([id] + Be32(v) + rest) == Some((Quad(id, v % 0x1_0000_0000), 5))
  {
    var b := [id] + Be32(v) + rest;
    Be32Truncates(v);
    assert b[1..5] == Be32(v);
  }

  lemma ParseConsHeader(front: seq<byte>, h: Header, rest: seq<byte>)
    requires front != [] && ParseHeader(front + rest) == Some((h, |front|))
    ensures ParseHeaders(front + rest)
         == match ParseHeaders(rest) case None => None case Some(hs) => Some([h] + hs)
  {
    assert (front + rest)[|front|..] == rest;
  }

  function BodyHeaderOf(last: bool, chunk: seq<byte>): Header {
    Octets(if last then HI_END_OF_BODY else HI_BODY, chunk)
  }

  lemma ParseBodyHeader(last: bool, chunk: seq<byte>)
    requires 3 + |chunk| < 65536
    ensures ParseHeaders(BodyHeader(last, chunk)) == Some([BodyHeaderOf(last, chunk)])
  {
    var b := BodyHeader(last, chunk);
    ParseTwoByteHeader(b[0], chunk, []);
    assert b + [] == b;
    ParseConsHeader(b, BodyHeaderOf(last, chunk), []);
    assert [BodyHeaderOf(last, chunk)] + [] == [BodyHeaderOf(last, chunk)];
  }

  lemma ParseLengthHeader(total: nat, rest: seq<byte>, hs: seq<Header>)
    requires ParseHeaders(rest) == Some(hs)
    ensures ParseHeaders([HI_LENGTH] + Be32(total) + rest) == Some([Quad(HI_LENGTH, total % 0x1_0000_0000)] + hs)
  {
    ParseQuadHeader(HI_LENGTH, total, rest);
    ParseConsHeader([HI_LENGTH] + Be32(total), Quad(HI_LENGTH, total % 0x1_0000_0000), rest);
  }

  lemma ParseNameHeader(name: seq<byte>, rest: seq<byte>, hs: seq<Header>)
    requires 3 + |name| < 65536 && ParseHeaders(rest) == Some(hs)
    ensures ParseHeaders([HI_NAME] + Be16(3 + |name|) + name + rest) == Some([Text(HI_NAME, name)] + hs)
  {
    ParseTwoByteHeader(HI_NAME, name, rest);
    ParseConsHeader([HI_NAME] + Be16(3 + |name|) + name, Text(HI_NAME, name), rest);
  }

  lemma ParsePreamble(name: seq<byte>, total: nat, rest: seq<byte>, hs: seq<Header>)
    requires 3 + |name| < 65536 && ParseHeaders(rest) == Some(hs)
    ensures ParseHeaders(Preamble(name, total) + rest)
         == Some([Text(HI_NAME, name), Quad(HI_LENGTH, total % 0x1_0000_0000)] + hs)
  {
    hide ParseHeaders, Be16, Be32;
    var quad := Quad(HI_LENGTH, total % 0x1_0000_0000);
    var tail := [HI_LENGTH] + Be32(total) + rest;
    ParseLengthHeader(total, rest, hs);
    ParseNameHeader(name, tail, [quad] + hs);
    assert Preamble(name, total) + rest == [HI_NAME] + Be16(3 + |name|) + name + tail;
    assert [Text(HI_NAME, name)] + ([quad] + hs) == [Text(HI_NAME, name), quad] + hs;
  }

  function HeadersAt(name: seq<byte>, data: seq<byte>, max: nat, offset: nat): seq<Header>
    requires offset <= |data|
  {
    (if offset == 0 then [Text(HI_NAME, name), Quad(HI_LENGTH, |data| % 0x1_0000_0000)] else [])
    + [BodyHeaderOf(IsLast(|name|, |data|, max, offset), data[offset..offset + ChunkLen(|name|, |data|, max, offset)])]
  }

  lemma BodyHeaderSize(last: bool, chunk: seq<byte>)
    ensures |BodyHeader(last, chunk)| == 3 + |chunk|
  {
  }

  lemma PreambleSize(name: seq<byte>, total: nat)
    ensures |Preamble(name, total)| == 8 + |name|
  {
  }

  lemma ParseContent(name: seq<byte>, data: seq<byte>, max: nat, offset: nat)
    requires offset <= |data|
    requires 3 + |Content(name, data, max, offset)| < 65536
    ensures ParseHeaders(Content(name, data, max, offset)) == Some(HeadersAt(name, data, max, offset))
  {
    hide ParseHeaders, Preamble, ChunkLen, IsLast, BodyHeader, BodyHeaderOf;
    var take := ChunkLen(|name|, |data|, max, offset);
    var last := IsLast(|name|, |data|, max, offset);
    var chunk := data[offset..offset + take];
    BodyHeaderSize(last, chunk);
    ParseBodyHeader(last, chunk);
    if offset == 0 {
      PreambleSize(name, |data|);
      ParsePreamble(name, |data|, BodyHeader(last, chunk), [BodyHeaderOf(last, chunk)]);
    } else {
      assert Content(name, data, max, offset) == BodyHeader(last, chunk);
      assert HeadersAt(name, data, max, offset) == [BodyHeaderOf(last, chunk)];
    }
  }

  lemma ParseFramed(opcode: byte, content: seq<byte>, headers: seq<Header>, rest: seq<byte>)
    requires 3 + |content| < 65536 && ParseHeaders(content) == Some(headers)
    ensures ParsePacket(Framed(opcode, content) + rest) == Some((Packet(opcode, headers), 3 + |content|))
    ensures ParseStream(Framed(opcode, content) + rest)
         == match ParseStream(rest) case None => None case Some(ps) => Some([Packet(opcode, headers)] + ps)
  {
    hide ParseHeaders, Be16, FromBe16;
    var b := Framed(opcode, content) + rest;
    Be16Truncates(3 + |content|);
    assert b[1..3] == Be16(3 + |content|);
    assert b[3..3 + |content|] == content;
    assert b[3 + |content|..] == rest;
  }

  // ---------------------------------------------------------------- sizes

  /** The largest packet of a plan is the first one when the name is long; later ones are
      bounded by the negotiated maximum. */
  predicate Fits(nameLen: nat, total: nat, max: nat) {
    14 + nameLen + ChunkLen(nameLen, total, max, 0) < 65536
  }

  lemma ContentSize(name: seq<byte>, data: seq<byte>, max: nat, offset: nat)
    requires offset <= |data|
    ensures |PutPacket(name, data, max, offset)|
         == (if offset == 0 then 14 + |name| else 6) + ChunkLen(|name|, |data|, max, offset)
  {
  }

  /** A packet of a plan that fits is short enough for its 16-bit length field. */
  lemma ContentFits(name: seq<byte>, data: seq<byte>, max: nat, offset: nat)
    requires max <= OUR_MAX_PACKET && offset <= |data|
    requires offset == 0 ==> Fits(|name|, |data|, max)
    ensures 3 + |Content(name, data, max, offset)| < 65536
  {
    ContentSize(name, data, max, offset);
  }

  // ---------------------------------------------------------------- the receiver agrees

  /** What the receiver holds just before the packet at `offset`. */
  function InboxBefore(name: seq<byte>, data: seq<byte>, offset: nat): Inbox
    requires offset <= |data|
  {
    if offset == 0 then EMPTY_INBOX
    else Inbox(Some(name), Some(|data| % 0x1_0000_0000), data[..offset], false)
  }

  /** And just after it. */
  function InboxAfter(name: seq<byte>, data: seq<byte>, max: nat, offset: nat): Inbox
    requires offset <= |data|
  {
    Inbox(Some(name), Some(|data| % 0x1_0000_0000), data[..offset + ChunkLen(|name|, |data|, max, offset)],
          IsLast(|name|, |data|, max, offset))
  }

  lemma TakePacket(name: seq<byte>, data: seq<byte>, max: nat, offset: nat)
    requires offset <= |data|
    ensures TakeHeaders(InboxBefore(name, data, offset), HeadersAt(name, data, max, offset))
         == Some(InboxAfter(name, data, max, offset))
  {
    var rx := InboxBefore(name, data, offset);
    var hs := HeadersAt(name, data, max, offset);
    var take := ChunkLen(|name|, |data|, max, offset);
    var last := IsLast(|name|, |data|, max, offset);
    var body := [BodyHeaderOf(last, data[offset..offset + take])];
    assert data[..offset] + data[offset..offset + take] == data[..offset + take];
    var open := Inbox(Some(name), Some(|data| % 0x1_0000_0000), data[..offset], false);
    assert TakeHeader(open, body[0]) == Some(open.(body := data[..offset + take], ended := last));
    assert TakeHeaders(open, body) == TakeHeaders(open.(body := data[..offset + take], ended := last), body[1..]);
    if offset == 0 {
      assert hs[1..] == [hs[1]] + body && hs[1..][1..] == body;
      assert TakeHeaders(rx, hs) == TakeHeaders(rx.(name := Some(name)), hs[1..]);
      assert TakeHeaders(rx.(name := Some(name)), hs[1..]) == TakeHeaders(open, body);
    } else {
      assert hs == body;
    }
  }

  /** The receiver takes one packet at a time. */
  lemma ReceiveCons(rx: Inbox, rx': Inbox, p: Packet, ps: seq<Packet>)
    requires TakeHeaders(rx, p.headers) == Some(rx')
    ensures p.opcode == OP_PUT && !rx'.ended ==> Receive(rx, [p] + ps) == Receive(rx', ps)
    ensures p.opcode == OP_PUT_FINAL && rx'.ended && ps == [] ==> Receive(rx, [p] + ps) == Some(rx')
  {
    hide TakeHeaders;
    assert ([p] + ps)[1..] == ps;
  }

  lemma NothingParsed()
    ensures ParseStream(Concat([])) == Some([])
  {
  }

  lemma {:induction false} ReceivePlan(name: seq<byte>, data: seq<byte>, max: nat, offset: nat)
    requires 255 <= max <= OUR_MAX_PACKET && offset <= |data|
    requires offset == 0 ==> Fits(|name|, |data|, max)
    ensures var r := ParseStream(Concat(Plan(name, data, max, offset)));
            && r.Some? && |r.value| == |Plan(name, data, max, offset)|
            && Receive(InboxBefore(name, data, offset), r.value)
            == Some(Inbox(Some(name), Some(|data| % 0x1_0000_0000), data, true))
    decreases |data| - offset
  {
    hide Plan, Content, HeadersAt, ChunkLen, ParseStream, ParsePacket, ParseHeaders, TakeHeaders, Receive, Framed, Concat;
    var plan := Plan(name, data, max, offset);
    var content := Content(name, data, max, offset);
    var headers := HeadersAt(name, data, max, offset);
    var next := offset + ChunkLen(|name|, |data|, max, offset);
    var opcode := if IsLast(|name|, |data|, max, offset) then OP_PUT_FINAL else OP_PUT;
    PlanHead(name, data, max, offset);
    ContentFits(name, data, max, offset);
    ParseContent(name, data, max, offset);
    ParseFramed(opcode, content, headers, Concat(plan[1..]));
    ConcatCons(plan[0], plan[1..]);
    assert plan == [plan[0]] + plan[1..];
    TakePacket(name, data, max, offset);
    if IsLast(|name|, |data|, max, offset) {
      assert data[..next] == data && plan[1..] == [];
      NothingParsed();
      ReceiveCons(InboxBefore(name, data, offset), InboxAfter(name, data, max, offset), Packet(opcode, headers), []);
    } else {
      ReceivePlan(name, data, max, next);
      ReceiveCons(InboxBefore(name, data, offset), InboxAfter(name, data, max, offset), Packet(opcode, headers),
                  ParseStream(Concat(plan[1..])).value);
    }
  }

  /** The object a receiver ought to end up with. */
  function Intended(name: seq<byte>, data: seq<byte>): Object {
    Object(name, |data|, data)
  }

  /** A stream whose first packet declares a length of four to eight but opens with a Name
      header that is longer. */
  lemma CutInsideName(stream: seq<byte>, len: nat, nameLen: nat)
    requires |stream| >= 6 && stream[3] == HI_NAME && 65520 < 3 + nameLen < 65536
    requires stream[1..3] == Be16(len) && stream[4..6] == Be16(3 + nameLen)
    requires 4 <= len <= 8 && len <= |stream|
    ensures ParsePacket(stream).None?
  {
    Be16Truncates(len);
    Be16Truncates(3 + nameLen);
    var content := stream[3..len];
    assert content[0] == HI_NAME;
    if len - 3 >= 3 {
      assert content[1..3] == stream[4..6];
    }
    assert ParseHeader(content).None?;
  }

  /** A stream whose first packet declares three bytes, so that the Name header identifier is
      taken for the opcode of a second packet. */
  lemma NameTakenForOpcode(stream: seq<byte>)
    requires |stream| >= 6 && stream[3] == HI_NAME && stream[1..3] == Be16(3)
    ensures ReceiveObject(stream).None?
  {
    Be16Truncates(3);
    assert stream[3..3] == [];
    var first := Packet(stream[0], []);
    assert ParsePacket(stream) == Some((first, 3));
    var rest := stream[3..];
    if ParseStream(rest).Some? {
      var packets := ParseStream(rest).value;
      assert packets != [] && packets[0].opcode == HI_NAME;
      assert ([first] + packets)[1..] == packets;
      assert Receive(EMPTY_INBOX, packets).None?;
    }
  }

  /** The receiver rejects a stream whose first length field has wrapped around this far. */
  lemma WrappedLengthRejected(stream: seq<byte>, len: nat, nameLen: nat)
    requires |stream| >= 8 && stream[3] == HI_NAME && 65520 < 3 + nameLen < 65536
    requires stream[1..3] == Be16(len) && stream[4..6] == Be16(3 + nameLen)
    requires len <= 8
    ensures ReceiveObject(stream).None?
  {
    if len > 3 {
      CutInsideName(stream, len, nameLen);
    } else if len == 3 {
      NameTakenForOpcode(stream);
    } else {
      Be16Truncates(len);
      assert ParsePacket(stream).None?;
    }
  }

  lemma ContentFront(name: seq<byte>, data: seq<byte>, max: nat)
    requires |name| >= 2
    ensures var content := Content(name, data, max, 0);
            && |content| == 11 + |name| + ChunkLen(|name|, |data|, max, 0)
            && content[0] == HI_NAME
            && content[1..3] == Be16(3 + |name|)
  {
    hide ChunkLen, IsLast, Be16, Be32;
    var content := Content(name, data, max, 0);
    assert content[1..3] == Be16(3 + |name|);
  }

  lemma FramedFront(opcode: byte, content: seq<byte>, rest: seq<byte>)
    requires |content| >= 5
    ensures var stream := Framed(opcode, content) + rest;
            && stream[1..3] == Be16(3 + |content|)
            && stream[3] == content[0]
            && stream[4..6] == content[1..3]
  {
    hide Be16;
    var stream := Framed(opcode, content) + rest;
    assert stream == [opcode] + Be16(3 + |content|) + (content + rest);
    assert stream[4..6] == (content + rest)[1..3] == content[1..3];
  }

  lemma FirstPacketBytes(name: seq<byte>, data: seq<byte>, max: nat)
    requires 255 <= max <= OUR_MAX_PACKET && |name| >= 2
    ensures var stream := Concat(Plan(name, data, max, 0));
            && |stream| >= 8 && stream[3] == HI_NAME
            && stream[1..3] == Be16(14 + |name| + ChunkLen(|name|, |data|, max, 0))
            && stream[4..6] == Be16(3 + |name|)
  {
    hide ChunkLen, IsLast, Content, Be16, Plan, Framed;
    ContentFront(name, data, max);
    PlanHead(name, data, max, 0);
    var plan := Plan(name, data, max, 0);
    var content := Content(name, data, max, 0);
    var opcode := if IsLast(|name|, |data|, max, 0) then OP_PUT_FINAL else OP_PUT;
    assert Concat(plan) == Framed(opcode, content) + Concat(plan[1..]);
    FramedFront(opcode, content, Concat(plan[1..]));
  }

  /** When the first packet is too long for its own 16-bit length field but the name header is
      not, the receiver cuts the packet short inside the name header. */
  lemma WrappedFirstPacketRejected(name: seq<byte>, data: seq<byte>, max: nat)
    requires 255 <= max <= OUR_MAX_PACKET
    requires !Fits(|name|, |data|, max) && |name| <= 65529
    ensures ReceiveObject(Concat(Plan(name, data, max, 0))).None?
  {
    hide Plan, Concat, ReceiveObject;
    FirstPacketBytes(name, data, max);
    var size := 14 + |name| + ChunkLen(|name|, |data|, max, 0);
    assert Be16(size) == Be16(size - 65536);
    WrappedLengthRejected(Concat(Plan(name, data, max, 0)), size - 65536, |name|);
  }

  lemma PutReceived(name: seq<byte>, data: seq<byte>, max: nat)
    requires 255 <= max <= OUR_MAX_PACKET && Fits(|name|, |data|, max)
    ensures ReceiveObject(Concat(Plan(name, data, max, 0))) == Some(Object(name, |data| % 0x1_0000_0000, data))
  {
    ReceivePlan(name, data, max, 0);
  }

  /** No stream delivers an object beyond the limits of the format. */
  lemma BeyondLimits(stream: seq<byte>, name: seq<byte>, data: seq<byte>)
    requires |name| > 65529 || |data| >= 0x1_0000_0000
    ensures ReceiveObject(stream) != Some(Intended(name, data))
  {
    ObjectLimits(stream);
  }

  /** The receiver ends up with exactly the object that was meant. */
  predicate Delivers(name: seq<byte>, data: seq<byte>, max: nat) {
    ReceiveObject(Concat(Plan(name, data, max, 0))) == Some(Intended(name, data))
  }

  lemma LongNameNotDelivered(name: seq<byte>, data: seq<byte>, max: nat)
    requires 255 <= max <= OUR_MAX_PACKET && |name| % 2 == 0 && |name| > 65520
    ensures !Delivers(name, data, max)
  {
    if |name| <= 65529 {
      WrappedFirstPacketRejected(name, data, max);
    } else {
      BeyondLimits(Concat(Plan(name, data, max, 0)), name, data);
    }
  }

  lemma HugeFileNotDelivered(name: seq<byte>, data: seq<byte>, max: nat)
    requires |data| >= 0x1_0000_0000
    ensures !Delivers(name, data, max)
  {
    BeyondLimits(Concat(Plan(name, data, max, 0)), name, data);
  }

  lemma OtherwiseDelivered(name: seq<byte>, data: seq<byte>, max: nat)
    requires 255 <= max <= OUR_MAX_PACKET && |name| <= 65520 && |data| < 0x1_0000_0000
    ensures Delivers(name, data, max)
  {
    assert Fits(|name|, |data|, max);
    PutReceived(name, data, max);
    SmallerIsItsOwnRemainder(|data|, 0x1_0000_0000);
  }

  lemma SmallerIsItsOwnRemainder(n: nat, d: nat)
    requires n < d
    ensures n % d == n
  {
  }

  /** The round trip, with the exact condition under which it holds. `name` is any Name payload
      of UTF-16 units, so its length is even. */
  lemma PutRoundTripIff(name: seq<byte>, data: seq<byte>, max: nat)
    requires 255 <= max <= OUR_MAX_PACKET && |name| % 2 == 0
    ensures Delivers(name, data, max) <==> |name| <= 65520 && |data| < 0x1_0000_0000
  {
    if |name| > 65520 {
      LongNameNotDelivered(name, data, max);
    } else if |data| >= 0x1_0000_0000 {
      HugeFileNotDelivered(name, data, max);
    } else {
      OtherwiseDelivered(name, data, max);
    }
  }

  // ---------------------------------------------------------------- packet sizes and count

  /** The first packet stays within the negotiated maximum exactly when the name leaves room for at
      least one more byte than the fixed headers, or there is no data to carry. */
  lemma FirstPacketWithinMax(name: seq<byte>, data: seq<byte>, max: nat)
    requires 255 <= max
    ensures |PutPacket(name, data, max, 0)| <= max <==> 14 + |name| + Min(|data|, 1) <= max
  {
    ContentSize(name, data, max, 0);
  }

  lemma {:induction false} LaterPackets(name: seq<byte>, data: seq<byte>, max: nat, offset: nat)
    requires 255 <= max && 0 < offset < |data|
    ensures var plan := Plan(name, data, max, offset);
            && |plan| == (|data| - offset + (max - 6) - 1) / (max - 6)
            && (forall i :: 0 <= i < |plan| - 1 ==> |plan[i]| == max)
            && |plan[|plan| - 1]| <= max
    decreases |data| - offset
  {
    hide Plan, PutPacket;
    var plan := Plan(name, data, max, offset);
    var left := |data| - offset;
    ContentSize(name, data, max, offset);
    PlanHead(name, data, max, offset);
    if left > max - 6 {
      LaterPackets(name, data, max, offset + (max - 6));
      assert plan == [plan[0]] + plan[1..];
      CeilStep(left, max - 6);
    } else {
      CeilOne(left, max - 6);
    }
  }

  lemma CeilStep(n: nat, d: nat)
    requires n > d > 0
    ensures (n + d - 1) / d == 1 + (n - 1) / d
  {
    var q := (n - 1) / d;
    assert (q + 1) * d == q * d + d;
    QuotientIs(n + d - 1, d, q + 1);
  }

  lemma CeilOne(n: nat, d: nat)
    requires 0 < n <= d
    ensures (n + d - 1) / d == 1
  {
    QuotientIs(n + d - 1, d, 1);
  }

  /** Packet count, sizes and fullness for every name. The first packet carries what the name leaves
      room for, and one byte if it leaves none; it is then the only one that may pass the maximum.
      Those between the first and the last are full. */
  lemma PlanShape(name: seq<byte>, data: seq<byte>, max: nat)
    requires 255 <= max
    ensures var plan := Plan(name, data, max, 0);
            var firstCap := Max(max - 14 - |name|, 1);
            && |plan| == (if |data| > firstCap then 1 + (|data| - firstCap + (max - 6) - 1) / (max - 6) else 1)
            && |plan[0]| == 14 + |name| + Min(|data|, firstCap)
            && (forall i :: 1 <= i < |plan| - 1 ==> |plan[i]| == max)
            && (|plan| > 1 ==> |plan[|plan| - 1]| <= max)
            && (14 + |name| < max ==> |plan[0]| <= max && (|plan| > 1 ==> |plan[0]| == max))
            && (14 + |name| >= max && |data| > 0 ==> |plan[0]| == 15 + |name| > max)
  {
    hide Plan, PutPacket;
    var firstCap := Max(max - 14 - |name|, 1);
    var plan := Plan(name, data, max, 0);
    ContentSize(name, data, max, 0);
    PlanHead(name, data, max, 0);
    if |data| > firstCap {
      LaterPackets(name, data, max, firstCap);
      assert plan == [plan[0]] + plan[1..];
    }
  }

  // ---------------------------------------------------------------- the acknowledged prefix

  /** How far into the object the `k` packets from `offset` on reach. */
  function Reach(nameLen: nat, total: nat, max: nat, offset: nat, k: nat): (end: nat)
    requires offset <= total
    ensures offset <= end <= total
    decreases k
  {
    if k == 0 then offset
    else Reach(nameLen, total, max, offset + ChunkLen(nameLen, total, max, offset), k - 1)
  }

  /** The cumulative byte counts reported while `k` packets from `offset` on are acknowledged. */
  function Marks(nameLen: nat, total: nat, max: nat, offset: nat, k: nat): (marks: seq<nat>)
    requires offset <= total
    ensures |marks| == k
    decreases k
  {
    if k == 0 then []
    else
      var next := offset + ChunkLen(nameLen, total, max, offset);
      [next] + Marks(nameLen, total, max, next, k - 1)
  }

  lemma {:induction false} MarksAreReaches(nameLen: nat, total: nat, max: nat, offset: nat, k: nat, i: nat)
    requires offset <= total && i < k
    ensures Marks(nameLen, total, max, offset, k)[i] == Reach(nameLen, total, max, offset, i + 1)
    decreases k
  {
    if i > 0 {
      MarksAreReaches(nameLen, total, max, offset + ChunkLen(nameLen, total, max, offset), k - 1, i - 1);
    } else {
      assert Reach(nameLen, total, max, offset, 1)
          == Reach(nameLen, total, max, offset + ChunkLen(nameLen, total, max, offset), 0);
    }
  }

  lemma {:induction false} ReachAll(name: seq<byte>, data: seq<byte>, max: nat, offset: nat)
    requires offset <= |data|
    ensures Reach(|name|, |data|, max, offset, |Plan(name, data, max, offset)|) == |data|
    decreases |data| - offset
  {
    if !IsLast(|name|, |data|, max, offset) {
      ReachAll(name, data, max, offset + ChunkLen(|name|, |data|, max, offset));
    } else {
      assert Reach(|name|, |data|, max, offset, 1)
          == Reach(|name|, |data|, max, offset + ChunkLen(|name|, |data|, max, offset), 0);
    }
  }

  lemma ConcatCons(p: seq<byte>, ps: seq<seq<byte>>)
    ensures Concat([p] + ps) == p + Concat(ps)
  {
  }

  /** `stream` holds `k` packets, and a receiver in state `rx` has collected `body` after them. */
  predicate Gathers(rx: Inbox, stream: seq<byte>, k: nat, body: seq<byte>) {
    var r := ParseStream(stream);
    && r.Some? && |r.value| == k
    && Gather(rx, r.value).Some? && Gather(rx, r.value).value.body == body
  }

  lemma GatherCons(opcode: byte, content: seq<byte>, headers: seq<Header>, rest: seq<byte>,
                   rx: Inbox, rx': Inbox, k: nat, body: seq<byte>)
    requires 3 + |content| < 65536 && ParseHeaders(content) == Some(headers)
    requires TakeHeaders(rx, headers) == Some(rx')
    requires Gathers(rx', rest, k, body)
    ensures Gathers(rx, Framed(opcode, content) + rest, k + 1, body)
  {
    ParseFramed(opcode, content, headers, rest);
    var tail := ParseStream(rest).value;
    assert ([Packet(opcode, headers)] + tail)[1..] == tail;
  }

  lemma GatherPacket(name: seq<byte>, data: seq<byte>, max: nat, offset: nat, rest: seq<byte>, k: nat, body: seq<byte>)
    requires 255 <= max <= OUR_MAX_PACKET && offset <= |data|
    requires offset == 0 ==> Fits(|name|, |data|, max)
    requires Gathers(InboxAfter(name, data, max, offset), rest, k, body)
    ensures Gathers(InboxBefore(name, data, offset), PutPacket(name, data, max, offset) + rest, k + 1, body)
  {
    ParseContent(name, data, max, offset);
    TakePacket(name, data, max, offset);
    GatherCons(PutPacket(name, data, max, offset)[0], Content(name, data, max, offset),
               HeadersAt(name, data, max, offset), rest,
               InboxBefore(name, data, offset), InboxAfter(name, data, max, offset), k, body);
  }

  lemma GatherNothing(rx: Inbox)
    ensures Gathers(rx, [], 0, rx.body)
  {
  }

  lemma PlanTake(name: seq<byte>, data: seq<byte>, max: nat, offset: nat, k: nat)
    requires offset <= |data| && 0 < k <= |Plan(name, data, max, offset)|
    ensures k > 1 ==> !IsLast(|name|, |data|, max, offset)
    ensures k > 1 ==> k - 1 <= |Plan(name, data, max, offset + ChunkLen(|name|, |data|, max, offset))|
    ensures Concat(Plan(name, data, max, offset)[..k])
         == PutPacket(name, data, max, offset)
          + (if k == 1 then []
             else Concat(Plan(name, data, max, offset + ChunkLen(|name|, |data|, max, offset))[..k - 1]))
  {
    var plan := Plan(name, data, max, offset);
    assert plan[..k] == [plan[0]] + plan[1..k];
    ConcatCons(plan[0], plan[1..k]);
    if k > 1 {
      assert plan[1..k] == plan[1..][..k - 1];
    }
  }

  lemma ReachOne(nameLen: nat, total: nat, max: nat, offset: nat)
    requires offset <= total
    ensures Reach(nameLen, total, max, offset, 1) == offset + ChunkLen(nameLen, total, max, offset)
  {
    assert Reach(nameLen, total, max, offset, 1)
        == Reach(nameLen, total, max, offset + ChunkLen(nameLen, total, max, offset), 0);
  }

  lemma GatherOne(name: seq<byte>, data: seq<byte>, max: nat, offset: nat)
    requires 255 <= max <= OUR_MAX_PACKET && offset <= |data|
    requires offset == 0 ==> Fits(|name|, |data|, max)
    ensures Gathers(InboxBefore(name, data, offset), PutPacket(name, data, max, offset), 1,
                    data[..offset + ChunkLen(|name|, |data|, max, offset)])
  {
    GatherNothing(InboxAfter(name, data, max, offset));
    GatherPacket(name, data, max, offset, [], 0, InboxAfter(name, data, max, offset).body);
    assert PutPacket(name, data, max, offset) + [] == PutPacket(name, data, max, offset);
  }

  lemma NothingSent()
    ensures Concat([]) == []
  {
  }

  /** The bodies in the first `k` packets are exactly the object up to where they reach. */
  lemma {:induction false} GatherPrefix(name: seq<byte>, data: seq<byte>, max: nat, offset: nat, k: nat)
    requires 255 <= max <= OUR_MAX_PACKET && offset <= |data|
    requires offset == 0 ==> Fits(|name|, |data|, max)
    requires k <= |Plan(name, data, max, offset)|
    ensures Gathers(InboxBefore(name, data, offset), Concat(Plan(name, data, max, offset)[..k]), k,
                    data[..Reach(|name|, |data|, max, offset, k)])
    decreases k
  {
    hide Plan, PutPacket, Concat, Gathers, ChunkLen;
    var next := offset + ChunkLen(|name|, |data|, max, offset);
    if k == 0 {
      assert Plan(name, data, max, offset)[..0] == [];
      NothingSent();
      GatherNothing(InboxBefore(name, data, offset));
    } else {
      PlanTake(name, data, max, offset, k);
      if k == 1 {
        GatherOne(name, data, max, offset);
        ReachOne(|name|, |data|, max, offset);
        assert PutPacket(name, data, max, offset) + [] == PutPacket(name, data, max, offset);
      } else {
        GatherPrefix(name, data, max, next, k - 1);
        GatherPacket(name, data, max, offset, Concat(Plan(name, data, max, next)[..k - 1]), k - 1,
                     data[..Reach(|name|, |data|, max, next, k - 1)]);
      }
    }
  }

  /** The body a packet of the plan carries, whether or not its length fields can express it. */
  ghost predicate Carries(packet: seq<byte>, chunk: seq<byte>) {
    exists front: seq<byte>, last: bool :: packet == front + BodyHeader(last, chunk)
  }

  /** The packets carry these chunks, and the chunks are this much of the object. */
  ghost predicate CarryAll(packets: seq<seq<byte>>, chunks: seq<seq<byte>>, part: seq<byte>) {
    && |chunks| == |packets| && Concat(chunks) == part
    && forall i :: 0 <= i < |packets| ==> Carries(packets[i], chunks[i])
  }

  lemma PacketCarries(name: seq<byte>, data: seq<byte>, max: nat, offset: nat)
    requires offset <= |data|
    ensures Carries(PutPacket(name, data, max, offset), data[offset..offset + ChunkLen(|name|, |data|, max, offset)])
  {
    hide ChunkLen, IsLast, Preamble, BodyHeader;
    var content := Content(name, data, max, offset);
    var chunk := data[offset..offset + ChunkLen(|name|, |data|, max, offset)];
    var last := IsLast(|name|, |data|, max, offset);
    var opcode := if last then OP_PUT_FINAL else OP_PUT;
    var front := [opcode] + Be16(3 + |content|) + (if offset == 0 then Preamble(name, |data|) else []);
    assert PutPacket(name, data, max, offset) == front + BodyHeader(last, chunk);
  }

  /** The first `k` packets from `offset` on carry the object from there to where they reach, for
      every name. */
  lemma {:induction false} PacketsCarry(name: seq<byte>, data: seq<byte>, max: nat, offset: nat, k: nat)
    returns (chunks: seq<seq<byte>>)
    requires offset <= |data| && k <= |Plan(name, data, max, offset)|
    ensures CarryAll(Plan(name, data, max, offset)[..k], chunks, data[offset..Reach(|name|, |data|, max, offset, k)])
    decreases k
  {
    hide PutPacket, ChunkLen, IsLast, Plan, Carries;
    PlanHead(name, data, max, offset);
    if k == 0 {
      chunks := [];
    } else {
      var next := offset + ChunkLen(|name|, |data|, max, offset);
      var plan := Plan(name, data, max, offset);
      PacketCarries(name, data, max, offset);
      var chunk := data[offset..next];
      if k == 1 {
        chunks := [chunk];
        ReachOne(|name|, |data|, max, offset);
        ConcatCons(chunk, []);
        assert [chunk] + [] == [chunk];
      } else {
        var later := PacketsCarry(name, data, max, next, k - 1);
        chunks := [chunk] + later;
        ConcatCons(chunk, later);
        assert plan[..k] == [plan[0]] + plan[1..][..k - 1];
      }
    }
  }
}
