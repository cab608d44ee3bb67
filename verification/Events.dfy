/** The event vocabulary every backend reports in, and the errors they return. */
module Events {
  import opened Bytes
  import opened HexText

  type BdAddr = s: seq<byte> | |s| == 6 witness [0, 0, 0, 0, 0, 0]

  datatype AddressType = Public | Random

  datatype DeviceId = DeviceId(addr: BdAddr, addrType: AddressType)

  /** `AA:BB:CC:DD:EE:FF`. */
  function AddrText(a: seq<byte>): string {
    if a == [] then ""
    else if |a| == 1 then Hex2(UPPER, a[0])
    else Hex2(UPPER, a[0]) + ":" + AddrText(a[1..])
  }

  function DeviceText(id: DeviceId): string {
    AddrText(id.addr) + if id.addrType == Random then " (random)" else ""
  }

  datatype Transport = BrEdr | Le | Dual

  function TransportText(t: Transport): string {
    match t
    case BrEdr => "BR/EDR"
    case Le => "LE"
    case Dual => "dual-mode"
  }

  /** The version is carried as its display name. */
  datatype SpecContext = SpecContext(version: string, transport: Transport)

  function SpecText(s: SpecContext): string {
    s.version + " over " + TransportText(s.transport)
  }

  /** The fixed context of a link; controller and standards are carried as their display labels. */
  datatype Origin = Origin(local: string, peer: DeviceId, spec: SpecContext, radio: string, portAuth: string)

  datatype Direction = Outbound | Inbound

  datatype Method = JustWorks | PinCode | PasskeyEntry | PasskeyDisplay | NumericComparison | OutOfBand

  datatype Kind =
    | DiscoveryStarted
    | DeviceDiscovered(rssi: Option<int>)
    | PairingStarted(method_: Method)
    | PairingCompleted
    | PairingFailed(reason: string)
    | Connected
    | Disconnected(why: Option<string>)
    | TransferStarted(name: string, totalBytes: nat)
    | TransferProgress(transferred: nat, total: nat)
    | TransferCompleted(bytes: nat, duration: nat)
    | DataChunk(direction: Direction, size: nat)
    | Warning(code: string, detail: string)
    | Error(detail: string)

  /** Only data chunks count as payload. */
  function PayloadBytes(k: Kind): nat {
    if k.DataChunk? then k.size else 0
  }

  function CompletedBytes(k: Kind): nat {
    if k.TransferCompleted? then k.bytes else 0
  }

  predicate IsFailure(k: Kind) {
    k.Error? || k.PairingFailed?
  }

  function Label(k: Kind): string {
    match k
    case DiscoveryStarted => "discovery-started"
    case DeviceDiscovered(_) => "device-discovered"
    case PairingStarted(_) => "pairing-started"
    case PairingCompleted => "pairing-completed"
    case PairingFailed(_) => "pairing-failed"
    case Connected => "connected"
    case Disconnected(_) => "disconnected"
    case TransferStarted(_, _) => "transfer-started"
    case TransferProgress(_, _) => "transfer-progress"
    case TransferCompleted(_, _) => "transfer-completed"
    case DataChunk(_, _) => "data-chunk"
    case Warning(_, _) => "warning"
    case Error(_) => "error"
  }

  /** `at` is in nanoseconds. */
  datatype Event = Event(seq_: nat, at: nat, origin: Origin, kind: Kind)

  datatype TransportError =
    | DeviceNotFound(id: DeviceId)
    | NotConnected(id: DeviceId)
    | PairingRejected(reason: string)
    | PairingFailure(reason: string)
    | TransferFailed(transferred: nat, reason: string)
    | Unsupported(backend: string, operation: string)
    | LocalAddress(detail: string)
    | Backend(detail: string)
    | Timeout(detail: string)

  function Decimal(n: nat): string {
    if n < 10 then [UPPER[n]] else Decimal(n / 10) + [UPPER[n % 10]]
  }

  function FromDecimal(s: string): Option<nat> {
    if s == "" then Some(0)
    else match FromDecimal(s[..|s| - 1])
      case None => None
      case Some(n) => if '0' <= s[|s| - 1] <= '9' then Some(10 * n + (s[|s| - 1] as int - '0' as int)) else None
  }

  /** Numbers are written in decimal. */
  lemma {:induction false} DecimalReads(n: nat)
    ensures FromDecimal(Decimal(n)) == Some(n)
  {
    hide FromDecimal;
    if n < 10 {
      OneMoreDigit("", 0, n);
      assert "" + [UPPER[n]] == [UPPER[n]];
    } else {
      DecimalReads(n / 10);
      OneMoreDigit(Decimal(n / 10), n / 10, n % 10);
    }
  }

  lemma OneMoreDigit(s: string, high: nat, digit: nat)
    requires digit < 10 && (FromDecimal(s) == Some(high) || (s == "" && high == 0))
    ensures FromDecimal(s + [UPPER[digit]]) == Some(10 * high + digit)
  {
    var t := s + [UPPER[digit]];
    assert t[..|t| - 1] == s && t[|t| - 1] == UPPER[digit];
    assert UPPER[digit] as int == '0' as int + digit;
  }

  /** The `Display` text of an error. */
  function ErrorText(e: TransportError): string {
    match e
    case DeviceNotFound(id) => "device not found: " + DeviceText(id)
    case NotConnected(id) => "not connected: " + DeviceText(id)
    case PairingRejected(reason) => "pairing rejected: " + reason
    case PairingFailure(reason) => "pairing failed: " + reason
    case TransferFailed(n, reason) => "transfer failed after " + Decimal(n) + " bytes: " + reason
    case Unsupported(backend, op) => "operation `" + op + "` not supported by the " + backend + " backend"
    case LocalAddress(detail) => "could not set local address: " + detail
    case Backend(detail) => "backend error: " + detail
    case Timeout(detail) => "timed out: " + detail
  }

  /** Payload bytes over a list of event kinds. */
  function ChunkBytes(ks: seq<Kind>): nat {
    if ks == [] then 0 else PayloadBytes(ks[0]) + ChunkBytes(ks[1..])
  }

  function ChunkCount(ks: seq<Kind>): nat {
    if ks == [] then 0 else (if ks[0].DataChunk? then 1 else 0) + ChunkCount(ks[1..])
  }

  lemma {:induction false} ChunksAppend(a: seq<Kind>, b: seq<Kind>)
    ensures ChunkBytes(a + b) == ChunkBytes(a) + ChunkBytes(b)
    ensures ChunkCount(a + b) == ChunkCount(a) + ChunkCount(b)
  {
    if a == [] {
      assert a + b == b;
    } else {
      assert (a + b)[1..] == a[1..] + b;
      ChunksAppend(a[1..], b);
    }
  }

  lemma ChunksOne(k: Kind)
    ensures ChunkBytes([k]) == PayloadBytes(k)
    ensures ChunkCount([k]) == if k.DataChunk? then 1 else 0
  {
    assert [k][1..] == [];
  }
}
