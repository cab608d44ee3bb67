/** Kernel mgmt command framing, and the bounded scan of replies for the one that ends a command. */
module Mgmt {
  import opened Bytes

  const OP_READ_INFO: nat := 0x0004
  const OP_SET_POWERED: nat := 0x0005
  const OP_SET_PUBLIC_ADDRESS: nat := 0x0039
  const EV_CMD_COMPLETE: nat := 0x0001
  const EV_CMD_STATUS: nat := 0x0002
  const MAX_READS: nat := 16
  const BUFFER: nat := 1024

  // ---------------------------------------------------------------- framing

  /** Commands and events share one frame: a code, a controller index and parameters. */
  datatype Frame = Frame(code: nat, index: nat, params: seq<byte>)

  predicate Encodable(f: Frame) {
    f.code < 65536 && f.index < 65536
  }

  function EncodeCommand(f: Frame): (b: seq<byte>)
    ensures |b| == 6 + |f.params|
  {
    Le16(f.code) + Le16(f.index) + Le16(|f.params|) + f.params
  }

  /** The frame at the front of `b` and what follows it. */
  function Decode(b: seq<byte>): Option<(Frame, seq<byte>)> {
    if |b| < 6 then None
    else
      var len := FromLe16(b[4..6]);
      if 6 + len > |b| then None
      else Some((Frame(FromLe16(b[0..2]), FromLe16(b[2..4]), b[6..6 + len]), b[6 + len..]))
  }

  /** What decoding reads in the bytes of one command followed by others. */
  lemma Fields(f: Frame, rest: seq<byte>)
    requires Encodable(f)
    ensures var b := EncodeCommand(f) + rest;
            && FromLe16(b[0..2]) == f.code && FromLe16(b[2..4]) == f.index
            && FromLe16(b[4..6]) == |f.params| % 65536
            && b[6..6 + |f.params|] == f.params && b[6 + |f.params|..] == rest
  {
    hide Le16, FromLe16;
    var b := EncodeCommand(f) + rest;
    Be16Truncates(f.code);
    Be16Truncates(f.index);
    Be16Truncates(|f.params|);
    assert b[0..2] == Le16(f.code) && b[2..4] == Le16(f.index) && b[4..6] == Le16(|f.params|);
    assert b[6..6 + |f.params|] == f.params && b[6 + |f.params|..] == rest;
  }

  /** A command decodes to itself exactly when its parameters fit the 16-bit length field. */
  lemma FrameRoundTripIff(f: Frame, rest: seq<byte>)
    requires Encodable(f)
    ensures Decode(EncodeCommand(f) + rest) == Some((f, rest)) <==> |f.params| <= 65535
  {
    hide EncodeCommand, Le16, FromLe16;
    Fields(f, rest);
  }

  function EncodeAll(fs: seq<Frame>): seq<byte> {
    if fs == [] then [] else EncodeCommand(fs[0]) + EncodeAll(fs[1..])
  }

  function DecodeAll(b: seq<byte>): Option<seq<Frame>>
    decreases |b|
  {
    if b == [] then Some([])
    else match Decode(b)
      case None => None
      case Some((f, rest)) =>
        if |rest| >= |b| then None
        else match DecodeAll(rest)
          case None => None
          case Some(fs) => Some([f] + fs)
  }

  /** Commands written back to back split uniquely into the commands they were. */
  lemma {:induction false} SplitsUniquely(fs: seq<Frame>)
    requires forall f <- fs :: Encodable(f) && |f.params| <= 65535
    ensures DecodeAll(EncodeAll(fs)) == Some(fs)
  {
    hide Decode, EncodeCommand;
    if fs != [] {
      var rest := EncodeAll(fs[1..]);
      FrameRoundTripIff(fs[0], rest);
      SplitsUniquely(fs[1..]);
      assert DecodeAll(EncodeAll(fs)) == Some([fs[0]] + fs[1..]);
      assert [fs[0]] + fs[1..] == fs;
    }
  }

  /** `bdaddr_le`: reverses an address in place. */
  method BdaddrLe(addr: array<byte>)
    modifies addr
    ensures addr[..] == Reversed(old(addr[..]))
  {
    ghost var was := addr[..];
    var n := addr.Length;
    for i := 0 to n / 2
      invariant forall k :: 0 <= k < i || n - i <= k < n ==> addr[k] == was[n - 1 - k]
      invariant forall k :: i <= k < n - i ==> addr[k] == was[k]
    {
      addr[i], addr[n - 1 - i] := addr[n - 1 - i], addr[i];
    }
  }

  function Reversed(s: seq<byte>): (r: seq<byte>)
    ensures |r| == |s| && forall k :: 0 <= k < |s| ==> r[k] == s[|s| - 1 - k]
  {
    seq(|s|, i requires 0 <= i < |s| => s[|s| - 1 - i])
  }

  // ---------------------------------------------------------------- replies

  /** A control socket: whether it can be opened and written to, and what its reads will return, one
      datagram each; when none is left a read times out. */
  class Socket {
    const opens: bool
    const writes: bool
    var replies: seq<seq<byte>>
    var sent: seq<byte>

    constructor (opens: bool, writes: bool, replies: seq<seq<byte>>)
      ensures this.opens == opens && this.writes == writes && this.replies == replies && sent == []
    {
      this.opens, this.writes, this.replies, sent := opens, writes, replies, [];
    }

    predicate Usable() {
      opens && writes
    }

    method Write(b: seq<byte>) returns (ok: bool)
      modifies this
      ensures ok == writes && replies == old(replies)
      ensures sent == (if writes then old(sent) + b else old(sent))
    {
      ok := writes;
      if ok {
        sent := sent + b;
      }
    }

    /** Fills the front of the buffer and leaves the rest as it was; negative on a timeout. */
    method Read(buf: array<byte>) returns (n: int)
      modifies this, buf
      ensures sent == old(sent)
      ensures old(replies) == [] ==> n == -1 && replies == [] && buf[..] == old(buf[..])
      ensures old(replies) != [] ==>
                && n == Min(|old(replies)[0]|, buf.Length) && replies == old(replies)[1..]
                && buf[..] == old(replies)[0][..n] + old(buf[..])[n..]
    {
      if replies == [] {
        return -1;
      }
      var reply := replies[0];
      replies := replies[1..];
      n := Min(|reply|, buf.Length);
      for i := 0 to n
        invariant buf[..] == reply[..i] + old(buf[..])[i..]
        invariant sent == old(sent) && replies == old(replies)[1..]
      {
        buf[i] := reply[i];
      }
    }
  }

  /** What a read of this reply leaves to look at. */
  function Seen(reply: seq<byte>): seq<byte> {
    reply[..Min(|reply|, BUFFER)]
  }

  /** The status of a reply that ends command `opcode`: a well-formed Command Complete or Command
      Status event for that opcode. */
  function Status(reply: seq<byte>, opcode: nat): Option<byte> {
    match Decode(Seen(reply))
    case None => None
    case Some((event, _)) =>
      if (event.code == EV_CMD_COMPLETE || event.code == EV_CMD_STATUS) && |event.params| >= 3
         && FromLe16(event.params[..2]) == opcode
      then Some(event.params[2]) else None
  }

  /** A reply already cut to the buffer is judged as the whole reply is. */
  lemma SeenTwice(reply: seq<byte>, opcode: nat)
    ensures Seen(Seen(reply)) == Seen(reply)
    ensures Status(Seen(reply), opcode) == Status(reply, opcode)
    ensures InfoReply(Seen(reply)) == InfoReply(reply)
  {
    hide Decode;
  }

  predicate TooShort(reply: seq<byte>) {
    |Seen(reply)| < 6
  }

  /** `Unsent`, `ShortReply` and `NoReply` are the I/O errors. */
  datatype CommandResult = Done | Refused(status: byte) | Unsent | ShortReply | NoReply

  function ResultOf(status: byte): CommandResult {
    if status == 0 then Done else Refused(status)
  }

  /** The scan with `left` reads to go. */
  function Scan(replies: seq<seq<byte>>, opcode: nat, left: nat): CommandResult {
    if left == 0 then NoReply
    else if replies == [] || TooShort(replies[0]) then ShortReply
    else match Status(replies[0], opcode)
      case Some(status) => ResultOf(status)
      case None => Scan(replies[1..], opcode, left - 1)
  }

  /** A reply the scan passes over. */
  predicate Irrelevant(reply: seq<byte>, opcode: nat) {
    !TooShort(reply) && Status(reply, opcode).None?
  }

  /** The first reply that is not passed over decides, if it is among the reads allowed. */
  lemma {:induction false} FirstDecides(replies: seq<seq<byte>>, opcode: nat, left: nat, k: nat)
    requires k <= |replies| && forall i :: 0 <= i < k ==> Irrelevant(replies[i], opcode)
    ensures k >= left ==> Scan(replies, opcode, left) == NoReply
    ensures k < left && (k == |replies| || TooShort(replies[k])) ==> Scan(replies, opcode, left) == ShortReply
    ensures k < left && k < |replies| && !TooShort(replies[k]) && Status(replies[k], opcode).Some? ==>
              Scan(replies, opcode, left) == ResultOf(Status(replies[k], opcode).value)
    decreases left
  {
    hide Status, TooShort;
    if left > 0 && k > 0 {
      FirstDecides(replies[1..], opcode, left - 1, k - 1);
    }
  }

  /** A terminating event the kernel would send is recognised, with its status. */
  lemma TerminalRecognised(opcode: nat, index: nat, status: byte, extra: seq<byte>, code: nat)
    requires opcode < 65536 && index < 65536 && |extra| <= BUFFER - 9
    requires code == EV_CMD_COMPLETE || code == EV_CMD_STATUS
    ensures var reply := EncodeCommand(Frame(code, index, Le16(opcode) + [status] + extra));
            !TooShort(reply) && Status(reply, opcode) == Some(status)
  {
    var params := Le16(opcode) + [status] + extra;
    var f := Frame(code, index, params);
    var reply := EncodeCommand(f);
    FrameRoundTripIff(f, []);
    assert Seen(reply) == reply == reply + [];
    Be16Truncates(opcode);
    assert params[..2] == Le16(opcode);
  }

  /** What a command over a socket comes to. */
  function Ran(usable: bool, replies: seq<seq<byte>>, opcode: nat): CommandResult {
    if usable then Scan(replies, opcode, MAX_READS) else Unsent
  }

  /** `run_command_inner`: sends a command and reads replies into one reused buffer until one ends
      it. Bytes left over from an earlier, longer reply never matter. */
  method RunCommand(sock: Socket, opcode: nat, index: nat, params: seq<byte>) returns (r: CommandResult)
    modifies sock
    ensures sock.sent == old(sock.sent) + (if sock.Usable() then EncodeCommand(Frame(opcode, index, params)) else [])
    ensures r == Ran(sock.Usable(), old(sock.replies), opcode)
  {
    hide Scan, Status, EncodeCommand;
    if !sock.opens {
      return Unsent;
    }
    var ok := sock.Write(EncodeCommand(Frame(opcode, index, params)));
    if !ok {
      return Unsent;
    }
    var buf := new byte[BUFFER](_ => 0);
    var left := MAX_READS;
    while left > 0
      invariant 0 <= left <= MAX_READS
      invariant sock.sent == old(sock.sent) + EncodeCommand(Frame(opcode, index, params))
      invariant Scan(sock.replies, opcode, left) == Scan(old(sock.replies), opcode, MAX_READS)
      invariant fresh(buf)
    {
      ScanStep(sock.replies, opcode, left);
      ghost var reply := if sock.replies == [] then [] else sock.replies[0];
      var n := sock.Read(buf);
      left := left - 1;
      if n < 6 {
        return ShortReply;
      }
      assert buf[..n] == Seen(reply);
      SeenTwice(reply, opcode);
      var status := Terminating(buf, n, opcode);
      if status.Some? {
        return if status.value == 0 then Done else Refused(status.value);
      }
    }
    ScanStep(sock.replies, opcode, 0);
    return NoReply;
  }

  function PowerCommand(index: nat, on: bool): seq<byte> {
    EncodeCommand(Frame(OP_SET_POWERED, index, [if on then 1 else 0]))
  }

  function AddressCommand(index: nat, addr: seq<byte>): seq<byte> {
    EncodeCommand(Frame(OP_SET_PUBLIC_ADDRESS, index, Reversed(addr)))
  }

  /** `spoof_public_address`: power off, set the address, power on, each over a socket of its own.
      The first command that fails ends it, so a controller that refuses the address stays off. */
  method SpoofPublicAddress(off: Socket, set_: Socket, on: Socket, index: nat, addr: array<byte>)
    returns (r: CommandResult)
    requires off != set_ && set_ != on && off != on
    modifies off, set_, on
    ensures var first := Ran(off.Usable(), old(off.replies), OP_SET_POWERED);
            var second := Ran(set_.Usable(), old(set_.replies), OP_SET_PUBLIC_ADDRESS);
            var third := Ran(on.Usable(), old(on.replies), OP_SET_POWERED);
            var setting := first.Done? && set_.Usable();
            var restoring := first.Done? && second.Done? && on.Usable();
            && off.sent == old(off.sent) + (if off.Usable() then PowerCommand(index, false) else [])
            && set_.sent == old(set_.sent) + (if setting then AddressCommand(index, addr[..]) else [])
            && on.sent == old(on.sent) + (if restoring then PowerCommand(index, true) else [])
            && r == if !first.Done? then first else if !second.Done? then second else third
  {
    hide Scan, EncodeCommand;
    r := RunCommand(off, OP_SET_POWERED, index, [0]);
    if !r.Done? {
      return;
    }
    var le := new byte[addr.Length](i requires 0 <= i < addr.Length reads addr => addr[i]);
    assert le[..] == addr[..];
    BdaddrLe(le);
    r := RunCommand(set_, OP_SET_PUBLIC_ADDRESS, index, le[..]);
    if !r.Done? {
      return;
    }
    r := RunCommand(on, OP_SET_POWERED, index, [1]);
  }

  lemma ScanStep(replies: seq<seq<byte>>, opcode: nat, left: nat)
    ensures left == 0 ==> Scan(replies, opcode, left) == NoReply
    ensures left > 0 && (replies == [] || TooShort(replies[0])) ==> Scan(replies, opcode, left) == ShortReply
    ensures left > 0 && replies != [] && !TooShort(replies[0]) ==>
              Scan(replies, opcode, left) == (match Status(replies[0], opcode)
                                              case Some(status) => ResultOf(status)
                                              case None => Scan(replies[1..], opcode, left - 1))
  {
  }

  /** Looks at the first `n` bytes of the buffer. */
  method Terminating(buf: array<byte>, n: int, opcode: nat) returns (r: Option<byte>)
    requires 6 <= n <= buf.Length && n <= BUFFER
    ensures r == Status(buf[..n], opcode)
  {
    ghost var seen := buf[..n];
    assert Seen(seen) == seen;
    var eventCode := FromLe16(buf[0..2]);
    var paramLen := FromLe16(buf[4..6]);
    assert seen[0..2] == buf[0..2] && seen[4..6] == buf[4..6];
    if 6 + paramLen > n {
      return None;
    }
    var params := buf[6..6 + paramLen];
    assert seen[6..6 + paramLen] == params;
    var isTerminal := eventCode == EV_CMD_COMPLETE || eventCode == EV_CMD_STATUS;
    if isTerminal && |params| >= 3 {
      if FromLe16(params[..2]) == opcode {
        return Some(params[2]);
      }
    }
    return None;
  }

  // ---------------------------------------------------------------- which replies end a command

  function Word(b: seq<byte>, i: nat): int
    requires i + 1 < |b|
  {
    var lo: int, hi: int := b[i], b[i + 1];
    lo + 256 * hi
  }

  /** A reply that ends a command, read off its bytes: a Command Complete (1) or Command Status (2)
      whose parameters are all among the first 1024 bytes, are at least three, and begin with the
      command's opcode. */
  predicate Terminates(reply: seq<byte>, opcode: nat) {
    && |reply| >= 9 && Word(reply, 0) in {1, 2}
    && Word(reply, 4) >= 3 && 6 + Word(reply, 4) <= Min(|reply|, 1024)
    && Word(reply, 6) == opcode
  }

  lemma ParamsAt(reply: seq<byte>, len: nat)
    requires 3 <= len && 6 + len <= |Seen(reply)|
    ensures var params := Seen(reply)[6..6 + len];
            && |params| == len && (forall i :: 0 <= i < len ==> params[i] == reply[6 + i])
            && params[..2] == [reply[6], reply[7]] && (len >= 12 ==> params[10..12] == [reply[16], reply[17]])
  {
    var params := Seen(reply)[6..6 + len];
    assert params[..2] == [params[0], params[1]];
    assert len >= 12 ==> params[10..12] == [params[10], params[11]];
  }

  /** A reply of at least six bytes is the end of a command exactly when it terminates it, and its
      status is then its ninth byte; every other such reply is passed over. */
  lemma StatusIff(reply: seq<byte>, opcode: nat)
    ensures TooShort(reply) <==> |reply| < 6
    ensures |reply| >= 6 ==>
              Status(reply, opcode) == if Terminates(reply, opcode) then Some(reply[8]) else None
  {
    if |reply| >= 6 {
      var b := Seen(reply);
      assert b[0..2] == reply[0..2] && b[4..6] == reply[4..6];
      var len := FromLe16(b[4..6]);
      if 6 + len <= |b| && len >= 3 {
        ParamsAt(reply, len);
      }
    }
  }

  /** The same over frames: of the frames that fit the buffer the scan ends on exactly those of code 1
      or 2 that carry the opcode and a status; one that does not fit is passed over. */
  lemma FrameEndsIff(f: Frame, rest: seq<byte>, opcode: nat)
    requires Encodable(f) && |f.params| <= 65535 && opcode < 65536
    ensures var reply := EncodeCommand(f) + rest;
            && !TooShort(reply)
            && (Status(reply, opcode).Some? <==>
                  6 + |f.params| <= 1024 && f.code in {1, 2} && |f.params| >= 3 && f.params[..2] == Le16(opcode))
            && (Status(reply, opcode).Some? ==> Status(reply, opcode).value == f.params[2])
  {
    hide Status, TooShort, Decode;
    var reply := EncodeCommand(f) + rest;
    StatusIff(reply, opcode);
    FieldBytes(f, rest);
    if |f.params| >= 3 {
      assert f.params[..2] == [f.params[0], f.params[1]];
      WordIs(reply, 6, f.params[0], f.params[1], opcode);
    }
  }

  lemma FieldBytes(f: Frame, rest: seq<byte>)
    requires Encodable(f) && |f.params| <= 65535
    ensures var reply := EncodeCommand(f) + rest;
            && Word(reply, 0) == f.code && Word(reply, 4) == |f.params|
            && (forall i :: 0 <= i < |f.params| ==> reply[6 + i] == f.params[i])
  {
  }

  lemma WordIs(b: seq<byte>, i: nat, lo: byte, hi: byte, n: nat)
    requires i + 1 < |b| && b[i] == lo && b[i + 1] == hi && n < 65536
    ensures Word(b, i) == n <==> [lo, hi] == Le16(n)
  {
  }

  /** The result of a command: the status of the first reply that terminates it, if that is among the
      first sixteen and no reply before it is short; zero is success. A short reply or the end of the
      replies before that, or sixteen replies passed over, is an I/O error. */
  lemma CommandResultIs(replies: seq<seq<byte>>, opcode: nat, k: nat)
    requires k <= |replies| && forall i :: 0 <= i < k ==> |replies[i]| >= 6 && !Terminates(replies[i], opcode)
    ensures var r := Ran(true, replies, opcode);
            && (k >= 16 ==> r == NoReply)
            && (k < 16 && (k == |replies| || |replies[k]| < 6) ==> r == ShortReply)
            && (k < 16 && k < |replies| && |replies[k]| >= 6 && Terminates(replies[k], opcode) ==>
                  r == if replies[k][8] == 0 then Done else Refused(replies[k][8]))
  {
    hide Status, TooShort, Terminates, Scan;
    forall i | 0 <= i < k
      ensures Irrelevant(replies[i], opcode)
    {
      StatusIff(replies[i], opcode);
    }
    if k < |replies| {
      StatusIff(replies[k], opcode);
    }
    FirstDecides(replies, opcode, 16, k);
  }

  /** The bytes of the commands: opcode, controller index and parameter length, each low byte first. */
  lemma CommandBytes(index: nat, addr: seq<byte>, on: bool)
    requires index < 65536 && |addr| == 6
    ensures PowerCommand(index, on) == [5, 0, index % 256, index / 256, 1, 0, if on then 1 else 0]
    ensures AddressCommand(index, addr)
         == [0x39, 0, index % 256, index / 256, 6, 0, addr[5], addr[4], addr[3], addr[2], addr[1], addr[0]]
    ensures EncodeCommand(Frame(OP_READ_INFO, index, [])) == [4, 0, index % 256, index / 256, 0, 0]
  {
  }

  // ---------------------------------------------------------------- reading controller info

  datatype ControllerInfo = ControllerInfo(hciVersion: byte, manufacturer: nat)

  /** The information in a successful Command Complete for Read Info. */
  function InfoIn(params: seq<byte>): Option<ControllerInfo> {
    if |params| < 12 || params[2] != 0 then None
    else Some(ControllerInfo(params[9], FromLe16(params[10..12])))
  }

  /** Whether a reply ends the Read Info command, and with which parameters. */
  function InfoReply(reply: seq<byte>): Option<seq<byte>> {
    match Decode(Seen(reply))
    case None => None
    case Some((event, _)) =>
      if event.code == EV_CMD_COMPLETE && |event.params| >= 3 && FromLe16(event.params[..2]) == OP_READ_INFO
      then Some(event.params) else None
  }

  function ScanInfo(replies: seq<seq<byte>>, left: nat): Option<ControllerInfo> {
    if left == 0 || replies == [] || TooShort(replies[0]) then None
    else match InfoReply(replies[0])
      case Some(params) => InfoIn(params)
      case None => ScanInfo(replies[1..], left - 1)
  }

  /** `read_inner`; every error is an absent answer to its caller. */
  method ReadInfo(sock: Socket, index: nat) returns (r: Option<ControllerInfo>)
    modifies sock
    ensures sock.sent == old(sock.sent) + (if sock.Usable() then EncodeCommand(Frame(OP_READ_INFO, index, [])) else [])
    ensures r == if sock.Usable() then ScanInfo(old(sock.replies), MAX_READS) else None
  {
    hide ScanInfo, InfoReply, EncodeCommand;
    if !sock.opens {
      return None;
    }
    var ok := sock.Write(EncodeCommand(Frame(OP_READ_INFO, index, [])));
    if !ok {
      return None;
    }
    var buf := new byte[BUFFER](_ => 0);
    var left := MAX_READS;
    while left > 0
      invariant 0 <= left <= MAX_READS
      invariant sock.sent == old(sock.sent) + EncodeCommand(Frame(OP_READ_INFO, index, []))
      invariant ScanInfo(sock.replies, left) == ScanInfo(old(sock.replies), MAX_READS)
      invariant fresh(buf)
    {
      ScanInfoStep(sock.replies, left);
      ghost var reply := if sock.replies == [] then [] else sock.replies[0];
      var n := sock.Read(buf);
      left := left - 1;
      if n < 6 {
        return None;
      }
      assert buf[..n] == Seen(reply);
      SeenTwice(reply, OP_READ_INFO);
      var params := InfoParams(buf, n);
      if params.Some? {
        var p := params.value;
        if p[2] != 0 {
          return None;
        }
        var rp := p[3..];
        if |rp| < 9 {
          return None;
        }
        Shifted(p);
        return Some(ControllerInfo(rp[6], FromLe16(rp[7..9])));
      }
    }
    ScanInfoStep(sock.replies, 0);
    return None;
  }

  lemma Shifted(p: seq<byte>)
    requires |p| >= 12
    ensures p[3..][6] == p[9] && p[3..][7..9] == p[10..12]
  {
  }

  lemma ScanInfoStep(replies: seq<seq<byte>>, left: nat)
    ensures left == 0 ==> ScanInfo(replies, left) == None
    ensures replies == [] || TooShort(replies[0]) ==> ScanInfo(replies, left) == None
    ensures left > 0 && replies != [] && !TooShort(replies[0]) ==>
              ScanInfo(replies, left) == (match InfoReply(replies[0])
                                          case Some(params) => InfoIn(params)
                                          case None => ScanInfo(replies[1..], left - 1))
  {
  }

  method InfoParams(buf: array<byte>, n: int) returns (r: Option<seq<byte>>)
    requires 6 <= n <= buf.Length && n <= BUFFER
    ensures r == InfoReply(buf[..n])
    ensures r.Some? ==> |r.value| >= 3
  {
    ghost var seen := buf[..n];
    assert Seen(seen) == seen;
    var paramLen := FromLe16(buf[4..6]);
    assert seen[0..2] == buf[0..2] && seen[4..6] == buf[4..6];
    if 6 + paramLen > n {
      return None;
    }
    var params := buf[6..6 + paramLen];
    assert seen[6..6 + paramLen] == params;
    if FromLe16(buf[0..2]) == EV_CMD_COMPLETE && |params| >= 3 && FromLe16(params[..2]) == OP_READ_INFO {
      return Some(params);
    }
    return None;
  }

  /** A reply Read Info passes over. */
  predicate OtherReply(reply: seq<byte>) {
    !TooShort(reply) && InfoReply(reply).None?
  }

  /** The first reply that is not passed over decides, if it is among the reads allowed; there is no
      answer otherwise. */
  lemma {:induction false} FirstInfoDecides(replies: seq<seq<byte>>, left: nat, k: nat)
    requires k <= |replies| && forall i :: 0 <= i < k ==> OtherReply(replies[i])
    ensures k >= left || k == |replies| || TooShort(replies[k]) ==> ScanInfo(replies, left) == None
    ensures k < left && k < |replies| && !TooShort(replies[k]) && InfoReply(replies[k]).Some? ==>
              ScanInfo(replies, left) == InfoIn(InfoReply(replies[k]).value)
    decreases left
  {
    hide InfoReply, InfoIn, TooShort;
    if left > 0 && k > 0 {
      FirstInfoDecides(replies[1..], left - 1, k - 1);
    }
  }

  /** The parameters of the kernel's answer to Read Info. */
  function InfoParameters(bdaddr: seq<byte>, version: byte, manufacturer: nat, extra: seq<byte>): seq<byte> {
    Le16(OP_READ_INFO) + [0] + bdaddr + [version] + Le16(manufacturer) + extra
  }

  lemma InfoRecognised(index: nat, bdaddr: seq<byte>, version: byte, manufacturer: nat, extra: seq<byte>)
    requires index < 65536 && manufacturer < 65536 && |bdaddr| == 6 && |extra| <= BUFFER - 18
    ensures var params := InfoParameters(bdaddr, version, manufacturer, extra);
            var reply := EncodeCommand(Frame(EV_CMD_COMPLETE, index, params));
            && !TooShort(reply) && InfoReply(reply) == Some(params)
            && InfoIn(params) == Some(ControllerInfo(version, manufacturer))
  {
    hide Decode;
    var params := InfoParameters(bdaddr, version, manufacturer, extra);
    var f := Frame(EV_CMD_COMPLETE, index, params);
    var reply := EncodeCommand(f);
    FrameRoundTripIff(f, []);
    assert Seen(reply) == reply == reply + [];
    Be16Truncates(OP_READ_INFO);
    Be16Truncates(manufacturer);
    assert params[..2] == Le16(OP_READ_INFO) && params[10..12] == Le16(manufacturer);
  }

  /** The kernel's answer to Read Info, behind fewer than sixteen replies to pass over and whatever
      follows it, gives back the version and manufacturer it carries. */
  lemma InfoRoundTrip(before: seq<seq<byte>>, index: nat, bdaddr: seq<byte>, version: byte, manufacturer: nat,
                      extra: seq<byte>, after: seq<seq<byte>>)
    requires index < 65536 && manufacturer < 65536 && |bdaddr| == 6 && |extra| <= BUFFER - 18
    requires |before| < MAX_READS && forall i :: 0 <= i < |before| ==> OtherReply(before[i])
    ensures var reply := EncodeCommand(Frame(EV_CMD_COMPLETE, index, InfoParameters(bdaddr, version, manufacturer, extra)));
            ScanInfo(before + [reply] + after, MAX_READS) == Some(ControllerInfo(version, manufacturer))
  {
    hide InfoReply, InfoIn, TooShort, EncodeCommand, ScanInfo, InfoParameters, OtherReply;
    InfoRecognised(index, bdaddr, version, manufacturer, extra);
    var reply := EncodeCommand(Frame(EV_CMD_COMPLETE, index, InfoParameters(bdaddr, version, manufacturer, extra)));
    FirstInfoDecides(before + [reply] + after, MAX_READS, |before|);
  }

  /** A reply that answers Read Info, read off its bytes: a Command Complete for opcode 4. */
  predicate Answers(reply: seq<byte>) {
    Terminates(reply, 4) && Word(reply, 0) == 1
  }

  /** The information in an answer, read off its bytes. */
  function InfoAt(reply: seq<byte>): Option<ControllerInfo>
    requires Answers(reply)
  {
    if reply[8] != 0 || Word(reply, 4) < 12 then None else Some(ControllerInfo(reply[15], Word(reply, 16)))
  }

  /** A reply of at least six bytes ends Read Info exactly when it answers it; the answer counts when its
      status is zero and it has at least twelve parameters, of which the tenth is the version and the
      next two the manufacturer. */
  lemma InfoReplyIff(reply: seq<byte>)
    requires |reply| >= 6
    ensures InfoReply(reply).Some? <==> Answers(reply)
    ensures Answers(reply) ==> InfoIn(InfoReply(reply).value) == InfoAt(reply)
  {
    var b := Seen(reply);
    assert b[0..2] == reply[0..2] && b[4..6] == reply[4..6];
    var len := FromLe16(b[4..6]);
    if 6 + len <= |b| && len >= 3 {
      ParamsAt(reply, len);
    }
  }

  /** What Read Info comes to: the first reply that answers it, if that is among the first sixteen and no
      reply before it is short. */
  lemma InfoResultIs(replies: seq<seq<byte>>, k: nat)
    requires k <= |replies| && forall i :: 0 <= i < k ==> |replies[i]| >= 6 && !Answers(replies[i])
    ensures var r := ScanInfo(replies, MAX_READS);
            && (k >= 16 || k == |replies| || |replies[k]| < 6 ==> r == None)
            && (k < 16 && k < |replies| && |replies[k]| >= 6 && Answers(replies[k]) ==>
                  r == InfoAt(replies[k]))
  {
    hide InfoReply, InfoIn, TooShort, Answers, ScanInfo, InfoAt;
    forall i | 0 <= i < k
      ensures OtherReply(replies[i])
    {
      StatusIff(replies[i], 4);
      InfoReplyIff(replies[i]);
    }
    if k < |replies| {
      StatusIff(replies[k], 4);
      if |replies[k]| >= 6 {
        InfoReplyIff(replies[k]);
      }
    }
    FirstInfoDecides(replies, 16, k);
  }
}
