/** Octets, the fixed-width integer encodings the wire formats use, and the two wrapper types
    every other module shares. */
module Bytes {

  type byte = x: int | 0 <= x < 256

  datatype Option<+T> = None | Some(value: T)

  datatype Result<+T, +E> = Ok(value: T) | Err(error: E)

  function Min(a: int, b: int): int { if a <= b then a else b }

  function Max(a: int, b: int): int { if a >= b then a else b }

  /** A quotient is determined by its bounds. */
  lemma QuotientIs(a: nat, d: nat, q: nat)
    requires q * d <= a < q * d + d
    ensures a / d == q
  {
    var r := a / d;
    assert r * d <= a < r * d + d;
    assert r < q ==> (r + 1) * d <= q * d;
    assert q < r ==> (q + 1) * d <= r * d;
  }

  /** `(n as u16).to_be_bytes()`: the cast keeps the low sixteen bits. */
  function Be16(n: nat): (b: seq<byte>)
    ensures |b| == 2
  {
    [n / 256 % 256, n % 256]
  }

  function FromBe16(b: seq<byte>): (n: nat)
    requires |b| == 2
    ensures n < 65536
  {
    var hi: int, lo: int := b[0], b[1];
    hi * 256 + lo
  }

  /** `(n as u32).to_be_bytes()`: the cast keeps the low thirty-two bits. */
  function Be32(n: nat): (b: seq<byte>)
    ensures |b| == 4
  {
    Be16(n / 65536) + Be16(n)
  }

  function FromBe32(b: seq<byte>): (n: nat)
    requires |b| == 4
    ensures n < 0x1_0000_0000
  {
    FromBe16(b[..2]) * 65536 + FromBe16(b[2..])
  }

  /** `(n as u16).to_le_bytes()`. */
  function Le16(n: nat): (b: seq<byte>)
    ensures |b| == 2
  {
    [n % 256, n / 256 % 256]
  }

  function FromLe16(b: seq<byte>): (n: nat)
    requires |b| == 2
    ensures n < 65536
  {
    var hi: int, lo: int := b[1], b[0];
    hi * 256 + lo
  }

  /** Decoding a 16-bit field gives back the written value modulo 2^16, in both byte orders. */
  lemma Be16Truncates(n: nat)
    ensures FromBe16(Be16(n)) == n % 65536
    ensures FromLe16(Le16(n)) == n % 65536
  {
    assert n % 65536 == n / 256 % 256 * 256 + n % 256;
  }

  /** Decoding a 32-bit field gives back the written value modulo 2^32. */
  lemma Be32Truncates(n: nat)
    ensures FromBe32(Be32(n)) == n % 0x1_0000_0000
  {
    Be16Truncates(n / 65536);
    Be16Truncates(n);
    assert Be32(n)[..2] == Be16(n / 65536) && Be32(n)[2..] == Be16(n);
    assert n % 0x1_0000_0000 == n / 65536 % 65536 * 65536 + n % 65536;
  }

  /** The bytes of several packets written back to back. */
  function Concat(packets: seq<seq<byte>>): seq<byte> {
    if packets == [] then [] else packets[0] + Concat(packets[1..])
  }
}
