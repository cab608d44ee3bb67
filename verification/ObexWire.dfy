/** OBEX wire format, from the receiving end. Nothing here looks at how the client builds its
    packets: headers are split by the top two bits of their identifier (section 2.1 of the IrDA
    Object Exchange Protocol 1.3), and an object arrives in PUT packets (section 3.3.3). */
module ObexWire {
  import opened Bytes

  const OP_CONNECT: byte := 0x80
  const OP_DISCONNECT: byte := 0x81
  const OP_PUT: byte := 0x02
  const OP_PUT_FINAL: byte := 0x82
  const RESP_CONTINUE: byte := 0x90
  const RESP_SUCCESS: byte := 0xA0
  const HI_NAME: byte := 0x01
  const HI_BODY: byte := 0x48
  const HI_END_OF_BODY: byte := 0x49
  const HI_LENGTH: byte := 0xC3
  const OBEX_VERSION: byte := 0x10
  const OUR_MAX_PACKET: nat := 0x2000

  /** The four header encodings. */
  datatype Header =
    | Text(id: byte, payload: seq<byte>)
    | Octets(id: byte, payload: seq<byte>)
    | Single(id: byte, single: byte)
    | Quad(id: byte, quad: nat)

  /** The header at the front of `b` and how many bytes it occupies. */
  function ParseHeader(b: seq<byte>): (r: Option<(Header, nat)>)
    ensures r.Some? ==> 2 <= r.value.1 <= |b|
  {
    if b == [] then None
    else
      var encoding := b[0] / 64;
      if encoding == 2 then
        if |b| < 2 then None else Some((Single(b[0], b[1]), 2))
      else if encoding == 3 then
        if |b| < 5 then None else Some((Quad(b[0], FromBe32(b[1..5])), 5))
      else if |b| < 3 then None
      else
        var len := FromBe16(b[1..3]);
        if len < 3 || len > |b| then None
        else if encoding == 0 then Some((Text(b[0], b[3..len]), len))
        else Some((Octets(b[0], b[3..len]), len))
  }

  function ParseHeaders(b: seq<byte>): Option<seq<Header>>
    decreases |b|
  {
    if b == [] then Some([])
    else match ParseHeader(b)
      case None => None
      case Some((h, size)) =>
        match ParseHeaders(b[size..])
        case None => None
        case Some(rest) => Some([h] + rest)
  }

  datatype Packet = Packet(opcode: byte, headers: seq<Header>)

  /** Cuts the packet at the front of `b` by its own length field. */
  function ParsePacket(b: seq<byte>): (r: Option<(Packet, nat)>)
    ensures r.Some? ==> 3 <= r.value.1 <= |b|
  {
    if |b| < 3 then None
    else
      var len := FromBe16(b[1..3]);
      if len < 3 || len > |b| then None
      else match ParseHeaders(b[3..len])
        case None => None
        case Some(headers) => Some((Packet(b[0], headers), len))
  }

  function ParseStream(b: seq<byte>): Option<seq<Packet>>
    decreases |b|
  {
    if b == [] then Some([])
    else match ParsePacket(b)
      case None => None
      case Some((p, size)) =>
        match ParseStream(b[size..])
        case None => None
        case Some(rest) => Some([p] + rest)
  }

  /** What a receiver has gathered so far. */
  datatype Inbox = Inbox(name: Option<seq<byte>>, length: Option<nat>, body: seq<byte>, ended: bool)

  const EMPTY_INBOX := Inbox(None, None, [], false)

  /** One header. Body data after an End-of-Body header is a protocol error; headers the
      receiver has no use for are skipped. */
  function TakeHeader(rx: Inbox, h: Header): Option<Inbox> {
    match h
    case Text(id, payload) => Some(if id == HI_NAME then rx.(name := Some(payload)) else rx)
    case Quad(id, v) => Some(if id == HI_LENGTH then rx.(length := Some(v)) else rx)
    case Single(_, _) => Some(rx)
    case Octets(id, payload) =>
      if id != HI_BODY && id != HI_END_OF_BODY then Some(rx)
      else if rx.ended then None
      else Some(rx.(body := rx.body + payload, ended := id == HI_END_OF_BODY))
  }

  function TakeHeaders(rx: Inbox, hs: seq<Header>): Option<Inbox>
    decreases |hs|
  {
    if hs == [] then Some(rx)
    else match TakeHeader(rx, hs[0])
      case None => None
      case Some(rx') => TakeHeaders(rx', hs[1..])
  }

  /** A PUT request: packets without the final bit must leave the object open, and the one
      packet with the final bit must be the last and must close it. */
  function Receive(rx: Inbox, packets: seq<Packet>): Option<Inbox>
    decreases |packets|
  {
    if packets == [] then None
    else match TakeHeaders(rx, packets[0].headers)
      case None => None
      case Some(rx') =>
        if packets[0].opcode == OP_PUT then
          if rx'.ended then None else Receive(rx', packets[1..])
        else if packets[0].opcode == OP_PUT_FINAL && rx'.ended && |packets| == 1 then Some(rx')
        else None
  }

  /** The headers of a run of packets, whatever their final bits: what has arrived so far. */
  function Gather(rx: Inbox, packets: seq<Packet>): Option<Inbox>
    decreases |packets|
  {
    if packets == [] then Some(rx)
    else match TakeHeaders(rx, packets[0].headers)
      case None => None
      case Some(rx') => Gather(rx', packets[1..])
  }

  /** An object as announced and delivered. */
  datatype Object = Object(name: seq<byte>, length: nat, body: seq<byte>)

  /** The whole receiver: bytes in, object out. */
  function ReceiveObject(stream: seq<byte>): Option<Object> {
    match ParseStream(stream)
    case None => None
    case Some(packets) =>
      match Receive(EMPTY_INBOX, packets)
      case None => None
      case Some(rx) =>
        if rx.name.None? || rx.length.None? then None
        else Some(Object(rx.name.value, rx.length.value, rx.body))
  }

  // ---------------------------------------------------------------- limits of the format

  /** Fields a 16-bit header length and a 32-bit quantity can express inside a 16-bit packet. */
  predicate Bounded(rx: Inbox) {
    && (rx.name.Some? ==> |rx.name.value| <= 65529)
    && (rx.length.Some? ==> rx.length.value < 0x1_0000_0000)
  }

  predicate BoundedHeader(h: Header) {
    match h
    case Text(_, payload) => |payload| <= 65529
    case Quad(_, v) => v < 0x1_0000_0000
    case _ => true
  }

  lemma {:induction false} ParsedHeadersBounded(b: seq<byte>)
    requires |b| <= 65532
    ensures var r := ParseHeaders(b);
            r.Some? ==> forall h <- r.value :: BoundedHeader(h)
    decreases |b|
  {
    if b != [] && ParseHeader(b).Some? {
      ParsedHeadersBounded(b[ParseHeader(b).value.1..]);
    }
  }

  lemma {:induction false} ParsedStreamBounded(b: seq<byte>)
    ensures var r := ParseStream(b);
            r.Some? ==> forall p <- r.value :: forall h <- p.headers :: BoundedHeader(h)
    decreases |b|
  {
    if b != [] && ParsePacket(b).Some? {
      ParsedHeadersBounded(b[3..ParsePacket(b).value.1]);
      ParsedStreamBounded(b[ParsePacket(b).value.1..]);
    }
  }

  lemma {:induction false} TakeHeadersBounded(rx: Inbox, hs: seq<Header>)
    requires Bounded(rx) && forall h <- hs :: BoundedHeader(h)
    ensures TakeHeaders(rx, hs).Some? ==> Bounded(TakeHeaders(rx, hs).value)
    decreases |hs|
  {
    if hs != [] && TakeHeader(rx, hs[0]).Some? {
      assert BoundedHeader(hs[0]);
      TakeHeadersBounded(TakeHeader(rx, hs[0]).value, hs[1..]);
    }
  }

  lemma {:induction false} ReceiveBounded(rx: Inbox, packets: seq<Packet>)
    requires Bounded(rx) && forall p <- packets :: forall h <- p.headers :: BoundedHeader(h)
    ensures Receive(rx, packets).Some? ==> Bounded(Receive(rx, packets).value)
    decreases |packets|
  {
    if packets != [] {
      TakeHeadersBounded(rx, packets[0].headers);
      if TakeHeaders(rx, packets[0].headers).Some? {
        ReceiveBounded(TakeHeaders(rx, packets[0].headers).value, packets[1..]);
      }
    }
  }

  /** No byte stream at all can deliver a longer name or a larger declared length. */
  lemma ObjectLimits(stream: seq<byte>)
    ensures var r := ReceiveObject(stream);
            r.Some? ==> |r.value.name| <= 65529 && r.value.length < 0x1_0000_0000
  {
    ParsedStreamBounded(stream);
    if ParseStream(stream).Some? {
      ReceiveBounded(EMPTY_INBOX, ParseStream(stream).value);
    }
  }
}
