/** The OBEX Name payload: big-endian UTF-16 followed by one NUL unit, and the decoder of
    section 2.2 of RFC 2781 that a receiver runs over it. */
module Utf16 {
  import opened Bytes

  /** The code units of one character, as `str::encode_utf16` yields them. */
  function CharUnits(c: char): (u: seq<nat>)
    ensures 1 <= |u| <= 2
    ensures forall i :: 0 <= i < |u| ==> u[i] < 65536
  {
    var v := c as int;
    if v < 0x1_0000 then [v]
    else [0xD800 + (v - 0x1_0000) / 0x400, 0xDC00 + (v - 0x1_0000) % 0x400]
  }

  function EncodeUnits(name: string): (u: seq<nat>)
    ensures forall i :: 0 <= i < |u| ==> u[i] < 65536
  {
    if name == "" then [] else CharUnits(name[0]) + EncodeUnits(name[1..])
  }

  function UnitBytes(units: seq<nat>): (b: seq<byte>)
    ensures |b| == 2 * |units|
  {
    if units == [] then [] else Be16(units[0]) + UnitBytes(units[1..])
  }

  /** The payload of the Name header. */
  function NamePayload(name: string): (p: seq<byte>)
    ensures |p| == 2 * |EncodeUnits(name)| + 2
  {
    UnitBytes(EncodeUnits(name)) + [0, 0]
  }

  /** The method form of the source: the units are appended one at a time. */
  method NameToUtf16(name: string) returns (out: seq<byte>)
    ensures out == NamePayload(name)
  {
    out := [];
    var units := EncodeUnits(name);
    for i := 0 to |units|
      invariant out + UnitBytes(units[i..]) == UnitBytes(units)
    {
      assert units[i..][1..] == units[i + 1..];
      out := out + Be16(units[i]);
    }
    assert units[|units|..] == [];
    out := out + [0, 0];
  }

  /** Pairs octets into big-endian units. */
  function BytesUnits(b: seq<byte>): (u: seq<nat>)
    requires |b| % 2 == 0
    ensures 2 * |u| == |b|
  {
    if b == [] then [] else [FromBe16(b[..2])] + BytesUnits(b[2..])
  }

  /** Section 2.2 of RFC 2781: a unit outside the surrogate range stands for itself, a high
      surrogate must be followed by a low one, anything else is an error. */
  function DecodeUnits(u: seq<nat>): Option<string> {
    if u == [] then Some("")
    else if u[0] < 0xD800 || 0xE000 <= u[0] < 0x1_0000 then
      match DecodeUnits(u[1..])
      case None => None
      case Some(rest) => Some([u[0] as char] + rest)
    else if u[0] < 0xDC00 && |u| >= 2 && 0xDC00 <= u[1] < 0xE000 then
      match DecodeUnits(u[2..])
      case None => None
      case Some(rest) => Some([((u[0] - 0xD800) * 0x400 + (u[1] - 0xDC00) + 0x1_0000) as char] + rest)
    else None
  }

  /** What a receiver makes of a Name payload: the last unit must be the terminator. */
  function DecodeName(p: seq<byte>): Option<string> {
    if |p| < 2 || |p| % 2 != 0 || p[|p| - 2..] != [0, 0] then None
    else DecodeUnits(BytesUnits(p[..|p| - 2]))
  }

  /** Each unit is two bytes, the high one first, and two zero bytes end the payload. */
  lemma PayloadLayout(name: string)
    ensures var p, u := NamePayload(name), EncodeUnits(name);
            && p[|p| - 2] == 0 && p[|p| - 1] == 0
            && forall i :: 0 <= i < |u| ==> p[2 * i] == u[i] / 256 && p[2 * i + 1] == u[i] % 256
  {
    UnitLayout(EncodeUnits(name));
  }

  lemma {:induction false} UnitLayout(units: seq<nat>)
    requires forall i :: 0 <= i < |units| ==> units[i] < 65536
    ensures forall i :: 0 <= i < |units| ==>
              UnitBytes(units)[2 * i] == units[i] / 256 && UnitBytes(units)[2 * i + 1] == units[i] % 256
  {
    if units != [] {
      UnitLayout(units[1..]);
      forall i | 0 < i < |units|
        ensures UnitBytes(units)[2 * i] == units[i] / 256 && UnitBytes(units)[2 * i + 1] == units[i] % 256
      {
        assert UnitBytes(units)[2 * i] == UnitBytes(units[1..])[2 * (i - 1)];
        assert UnitBytes(units)[2 * i + 1] == UnitBytes(units[1..])[2 * (i - 1) + 1];
      }
    }
  }

  lemma {:induction false} UnitsRoundTrip(name: string)
    ensures DecodeUnits(EncodeUnits(name)) == Some(name)
  {
    if name != "" {
      var u := EncodeUnits(name);
      var c := CharUnits(name[0]);
      UnitsRoundTrip(name[1..]);
      assert u[|c|..] == EncodeUnits(name[1..]);
      assert name == [name[0]] + name[1..];
    }
  }

  lemma {:induction false} BytesRoundTrip(units: seq<nat>)
    requires forall i :: 0 <= i < |units| ==> units[i] < 65536
    ensures BytesUnits(UnitBytes(units)) == units
  {
    if units != [] {
      var b := UnitBytes(units);
      Be16Truncates(units[0]);
      BytesRoundTrip(units[1..]);
      assert b[..2] == Be16(units[0]) && b[2..] == UnitBytes(units[1..]);
    }
  }

  /** Every name survives the encoding, surrogate pairs and embedded NULs included. */
  lemma NameRoundTrip(name: string)
    ensures DecodeName(NamePayload(name)) == Some(name)
  {
    hide DecodeUnits, EncodeUnits, BytesUnits, UnitBytes;
    var p := NamePayload(name);
    assert p[..|p| - 2] == UnitBytes(EncodeUnits(name));
    BytesRoundTrip(EncodeUnits(name));
    UnitsRoundTrip(name);
  }
}
