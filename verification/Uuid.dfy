/** Printing and parsing UUIDs. Lengths and slices of text count UTF-8 bytes. */
module Uuid {
  import opened Bytes
  import opened HexText

  type UuidBytes = s: seq<byte> | |s| == 16 witness seq(16, _ => 0)

  /** The Bluetooth Base UUID with the four short bytes left out. */
  const BASE_TAIL: seq<byte> :=
    [0x00, 0x00, 0x10, 0x00, 0x80, 0x00, 0x00, 0x80, 0x5F, 0x9B, 0x34, 0xFB]

  /** `from_u32`; the 16-bit form goes through it. */
  function FromU32(short: nat): UuidBytes {
    Be32(short) + BASE_TAIL
  }

  // ---------------------------------------------------------------- text as bytes

  function Width(c: char): (w: nat)
    ensures 1 <= w <= 4
  {
    if c as int < 0x80 then 1 else if c as int < 0x800 then 2 else if c as int < 0x10000 then 3 else 4
  }

  function ByteLen(s: string): (n: nat)
    ensures n >= |s|
  {
    if s == "" then 0 else Width(s[0]) + ByteLen(s[1..])
  }

  /** The character that starts at a byte offset; `None` inside a character or past the end. */
  function CharAt(s: string, offset: nat): (i: Option<nat>)
    ensures i.Some? ==> i.value <= |s|
  {
    if offset == 0 then Some(0)
    else if s == "" || offset < Width(s[0]) then None
    else match CharAt(s[1..], offset - Width(s[0]))
      case None => None
      case Some(i) => Some(i + 1)
  }

  /** `&s[from..to]`; `None` when an end is not between two characters, which panics. */
  function Slice(s: string, from: nat, to: nat): Option<string> {
    match (CharAt(s, from), CharAt(s, to))
    case (Some(i), Some(j)) => if i <= j then Some(s[i..j]) else None
    case _ => None
  }

  /** The position of the first character beyond ASCII, or the length. */
  function Ascii(s: string): (j: nat)
    ensures j <= |s|
    ensures forall k :: 0 <= k < j ==> Width(s[k]) == 1
    ensures j < |s| ==> Width(s[j]) > 1
  {
    if s == "" || Width(s[0]) > 1 then 0 else 1 + Ascii(s[1..])
  }

  lemma {:induction false} CharInAscii(s: string, offset: nat)
    requires offset <= Ascii(s)
    ensures CharAt(s, offset) == Some(offset)
  {
    if offset > 0 {
      CharInAscii(s[1..], offset - 1);
    }
  }

  /** Offsets around the first wide character. */
  lemma {:induction false} CharAroundWide(s: string, d: nat)
    requires Ascii(s) < |s| && 0 < d <= Width(s[Ascii(s)])
    ensures CharAt(s, Ascii(s) + d)
         == (if d == Width(s[Ascii(s)]) then Some(Ascii(s) + 1) else None)
  {
    if Ascii(s) > 0 {
      CharAroundWide(s[1..], d);
    }
  }

  lemma {:induction false} ByteLenOfAscii(s: string)
    requires Ascii(s) == |s|
    ensures ByteLen(s) == |s|
  {
    if s != "" {
      ByteLenOfAscii(s[1..]);
    }
  }

  lemma {:induction false} ByteLenBeyond(s: string)
    requires Ascii(s) < |s|
    ensures ByteLen(s) >= Ascii(s) + Width(s[Ascii(s)])
  {
    if Ascii(s) > 0 {
      ByteLenBeyond(s[1..]);
    }
  }

  // ---------------------------------------------------------------- parsing

  function Strip(s: string): string {
    if s == "" then ""
    else if s[0] == '-' then Strip(s[1..]) else [s[0]] + Strip(s[1..])
  }

  datatype Outcome = Parsed(uuid: UuidBytes) | Invalid | Panics

  function Pair(t: string, i: nat): (v: Option<nat>)
    requires 2 * i + 2 <= |t|
    ensures v.Some? ==> v.value < 256
  {
    FromStrRadix16(t[2 * i..2 * i + 2], 256)
  }

  /** All pairs before the first wide character are accepted. */
  predicate PairsAccepted(t: string) {
    forall i :: 0 <= i < Ascii(t) / 2 ==> Pair(t, i).Some?
  }

  /** What becomes of a text of 32 bytes. */
  function LongForm(t: string): (r: Outcome)
    requires ByteLen(t) == 32
  {
    var j := Ascii(t);
    if !PairsAccepted(t) then Invalid
    else if j < |t| then
      if j % 2 == 1 || Width(t[j]) > 2 then Panics else Invalid
    else
      ByteLenOfAscii(t);
      Parsed(seq(16, i requires 0 <= i < 16 => Pair(t, i).value))
  }

  function ShortForm(t: string, limit: nat): Outcome
    requires limit <= 0x1_0000_0000
  {
    match FromStrRadix16(t, limit)
    case Some(v) => Parsed(FromU32(v))
    case None => Invalid
  }

  function Parse(s: string): Outcome {
    var t := Strip(s);
    if ByteLen(t) == 4 then ShortForm(t, 65536)
    else if ByteLen(t) == 8 then ShortForm(t, 0x1_0000_0000)
    else if ByteLen(t) == 32 then LongForm(t)
    else Invalid
  }

  /** One pass of the loop, where the text is cut at byte offsets. */
  lemma PairSlice(t: string, i: nat)
    requires ByteLen(t) == 32 && i < 16 && 2 * i <= Ascii(t)
    ensures var j := Ascii(t);
            && (2 * i + 2 <= j ==> Slice(t, 2 * i, 2 * i + 2) == Some(t[2 * i..2 * i + 2]))
            && (2 * i + 2 > j ==> j < |t|)
            && (2 * i + 2 > j && (j % 2 == 1 || Width(t[j]) > 2) ==> Slice(t, 2 * i, 2 * i + 2) == None)
            && (2 * i + 2 > j && j % 2 == 0 && Width(t[j]) <= 2 ==>
                  Slice(t, 2 * i, 2 * i + 2) == Some([t[j]]) && FromStrRadix16([t[j]], 256) == None)
  {
    hide CharAt, Ascii, ByteLen, Width, FromStrRadix16, Slice;
    var j := Ascii(t);
    CharInAscii(t, 2 * i);
    SliceEnds(t, 2 * i, 2 * i + 2);
    if 2 * i + 2 <= j {
      CharInAscii(t, 2 * i + 2);
    } else {
      if j == |t| {
        ByteLenOfAscii(t);
        assert false;
      }
      CharAroundWide(t, 2 * i + 2 - j);
      WideIsNoDigit(t[j]);
      assert j % 2 == 0 ==> t[j..j + 1] == [t[j]];
    }
  }

  lemma SliceEnds(t: string, from: nat, to: nat)
    requires CharAt(t, from) == Some(from)
    ensures CharAt(t, to).None? ==> Slice(t, from, to) == None
    ensures CharAt(t, to).Some? && from <= CharAt(t, to).value ==>
              Slice(t, from, to) == Some(t[from..CharAt(t, to).value])
  {
    hide CharAt;
  }

  lemma WideIsNoDigit(c: char)
    requires Width(c) > 1
    ensures DigitValue(c).None? && FromStrRadix16([c], 256) == None
  {
    assert [c][..0] == "";
    assert DigitsValue([c]) == DigitValue(c);
  }

  /** `from_str`. */
  method FromStr(s: string) returns (r: Outcome)
    ensures r == Parse(s)
  {
    hide Strip, ByteLen, Slice, Ascii, FromStrRadix16, FromU32, CharAt;
    var t := Strip(s);
    var len := ByteLen(t);
    if len == 4 {
      return ShortForm(t, 65536);
    }
    if len == 8 {
      return ShortForm(t, 0x1_0000_0000);
    }
    if len != 32 {
      return Invalid;
    }
    var bytes := new byte[16](_ => 0);
    for i := 0 to 16
      invariant 2 * i <= Ascii(t)
      invariant forall k :: 0 <= k < i ==> Pair(t, k) == Some(bytes[k] as int)
    {
      PairSlice(t, i);
      var pair := Slice(t, 2 * i, 2 * i + 2);
      if pair.None? {
        return Panics;
      }
      var value := FromStrRadix16(pair.value, 256);
      if value.None? {
        assert 2 * i + 2 <= Ascii(t) ==> i < Ascii(t) / 2 && Pair(t, i).None?;
        return Invalid;
      }
      bytes[i] := value.value;
    }
    if Ascii(t) < |t| {
      ByteLenBeyond(t);
      assert false;
    }
    ByteLenOfAscii(t);
    assert LongForm(t).Parsed?;
    assert bytes[..] == LongForm(t).uuid;
    return Parsed(bytes[..]);
  }

  /** The slices of the loop land inside a character, and so panic, exactly when the text has 32
      bytes, is cut by its first wide character, and nothing before that is rejected. */
  lemma PanicsIff(s: string)
    ensures Parse(s).Panics? <==>
              var t := Strip(s);
              && ByteLen(t) == 32
              && exists j :: 0 <= j < |t|
                   && (forall k :: 0 <= k < j ==> t[k] < '\U{80}')
                   && (forall i :: 0 <= i < j / 2 ==> Pair(t, i).Some?)
                   && (t[j] >= '\U{800}' || (t[j] >= '\U{80}' && j % 2 == 1))
  {
    hide ByteLen, FromStrRadix16, Strip;
    var t := Strip(s);
    var j := Ascii(t);
    assert forall k :: 0 <= k < j ==> t[k] < '\U{80}';
    forall k | 0 <= k < |t| && (forall i :: 0 <= i < k ==> t[i] < '\U{80}') && t[k] >= '\U{80}'
      ensures k == j
    {
    }
  }

  lemma PanicsExample()
    ensures Parse(['\U{20AC}'] + seq(29, _ => '0')).Panics?
  {
    var zeros := seq(29, _ => '0');
    var s := ['\U{20AC}'] + zeros;
    assert s[1..] == zeros;
    Plain(zeros);
    assert Strip(s) == s;
    assert ByteLen(s) == 32;
    assert Ascii(s) == 0;
  }

  // ---------------------------------------------------------------- round trips

  /** ASCII and without hyphens. */
  predicate IsPlain(s: string) {
    forall i :: 0 <= i < |s| ==> s[i] < '\U{80}' && s[i] != '-'
  }

  lemma {:induction false} Plain(s: string)
    requires IsPlain(s)
    ensures Strip(s) == s && Ascii(s) == |s| == ByteLen(s)
  {
    if s != "" {
      Plain(s[1..]);
    }
  }

  lemma {:induction false} StripAppend(a: string, b: string)
    ensures Strip(a + b) == Strip(a) + Strip(b)
  {
    if a == "" {
      assert a + b == b;
    } else {
      assert (a + b)[1..] == a[1..] + b;
      StripAppend(a[1..], b);
    }
  }

  /** Bytes written as pairs of digits. */
  function Hex(digits: string, b: seq<byte>): (s: string)
    requires |digits| == 16
    ensures |s| == 2 * |b|
  {
    if b == [] then "" else Hex2(digits, b[0]) + Hex(digits, b[1..])
  }

  lemma {:induction false} HexPair(digits: string, b: seq<byte>, i: nat)
    requires |digits| == 16 && i < |b|
    ensures Hex(digits, b)[2 * i..2 * i + 2] == Hex2(digits, b[i])
  {
    hide Hex2;
    if i > 0 {
      HexPair(digits, b[1..], i - 1);
      assert Hex(digits, b)[2 * i..2 * i + 2] == Hex(digits, b[1..])[2 * (i - 1)..2 * (i - 1) + 2];
    }
  }

  lemma {:induction false} HexIsPlain(digits: string, b: seq<byte>)
    requires digits == UPPER || digits == LOWER
    ensures IsPlain(Hex(digits, b))
  {
    if b != [] {
      DigitOf(b[0] / 16);
      DigitOf(b[0] % 16);
      HexIsPlain(digits, b[1..]);
    }
  }

  lemma {:induction false} HexAppend(digits: string, a: seq<byte>, b: seq<byte>)
    requires |digits| == 16
    ensures Hex(digits, a + b) == Hex(digits, a) + Hex(digits, b)
  {
    hide Hex2;
    if a == [] {
      assert a + b == b;
    } else {
      assert (a + b)[1..] == a[1..] + b;
      HexAppend(digits, a[1..], b);
    }
  }

  function Hyphenated(digits: string, groups: seq<seq<byte>>): string
    requires |digits| == 16 && |groups| >= 1
  {
    if |groups| == 1 then Hex(digits, groups[0])
    else Hex(digits, groups[0]) + "-" + Hyphenated(digits, groups[1..])
  }

  function Groups(u: UuidBytes): seq<seq<byte>> {
    [u[..4], u[4..6], u[6..8], u[8..10], u[10..]]
  }

  /** The hyphenated form; printing uses lower case. */
  function Text(digits: string, u: UuidBytes): string
    requires |digits| == 16
  {
    Hyphenated(digits, Groups(u))
  }

  lemma StripHyphen(a: string, b: string)
    requires IsPlain(a)
    ensures Strip(a + "-" + b) == a + Strip(b)
  {
    hide Strip, IsPlain;
    StripAppend(a + "-", b);
    StripAppend(a, "-");
    Plain(a);
    LoneHyphen();
    assert a + "" == a;
  }

  lemma LoneHyphen()
    ensures Strip("-") == ""
  {
  }

  lemma {:induction false} HyphenatedStripped(digits: string, groups: seq<seq<byte>>)
    requires digits == UPPER || digits == LOWER
    requires |groups| >= 1
    ensures Strip(Hyphenated(digits, groups)) == Hex(digits, Concat(groups))
  {
    hide Hex, Strip, IsPlain;
    HexIsPlain(digits, groups[0]);
    if |groups| == 1 {
      Plain(Hex(digits, groups[0]));
      assert Concat(groups) == groups[0] + [] == groups[0];
    } else {
      StripHyphen(Hex(digits, groups[0]), Hyphenated(digits, groups[1..]));
      HyphenatedStripped(digits, groups[1..]);
      HexAppend(digits, groups[0], Concat(groups[1..]));
    }
  }

  /** Stripping the hyphens of the printed form leaves the bare form. */
  lemma TextStripped(digits: string, u: UuidBytes)
    requires digits == UPPER || digits == LOWER
    ensures Strip(Text(digits, u)) == Hex(digits, u)
  {
    hide Hex, Strip, Hyphenated;
    HyphenatedStripped(digits, Groups(u));
    GroupsWhole(u);
  }

  lemma GroupsWhole(u: UuidBytes)
    ensures Concat(Groups(u)) == u
  {
    assert Groups(u)[4..] == [u[10..]];
    assert Concat([u[10..]]) == u[10..];
    assert Groups(u)[3..] == [u[8..10], u[10..]];
    assert Concat(Groups(u)[3..]) == u[8..];
    assert Concat(Groups(u)[2..]) == u[6..];
    assert Concat(Groups(u)[1..]) == u[4..];
  }

  lemma BareRead(digits: string, u: UuidBytes)
    requires digits == UPPER || digits == LOWER
    ensures var t := Hex(digits, u);
            && IsPlain(t) && ByteLen(t) == 32
            && LongForm(t) == Parsed(u)
  {
    hide Hex, FromStrRadix16, Hex2;
    var t := Hex(digits, u);
    HexIsPlain(digits, u);
    Plain(t);
    forall i | 0 <= i < 16
      ensures Pair(t, i) == Some(u[i] as int)
    {
      HexPair(digits, u, i);
      Hex2RoundTrip(u[i]);
    }
    assert LongForm(t).Parsed?;
    assert LongForm(t).uuid == u;
  }

  /** Every UUID is read back from its hyphenated and its bare form, in upper or lower case. */
  lemma PrintThenParse(u: UuidBytes, digits: string)
    requires digits in {UPPER, LOWER}
    ensures Parse(Text(digits, u)) == Parsed(u)
    ensures Parse(Hex(digits, u)) == Parsed(u)
  {
    hide Hex, Text, LongForm, ByteLen;
    BareRead(digits, u);
    TextStripped(digits, u);
    Plain(Hex(digits, u));
  }

  // ---------------------------------------------------------------- short forms

  /** What follows the first group in the printed form of every short UUID. */
  const TAIL: string := "-0000-1000-8000-00805f9b34fb"

  lemma TailBytes()
    ensures |Strip(TAIL)| == 24 && IsPlain(Strip(TAIL))
    ensures forall i :: 0 <= i < 12 ==> Pair(Strip(TAIL), i) == Some(BASE_TAIL[i] as int)
  {
    hide Hex, Strip, Hyphenated, FromStrRadix16, Hex2, IsPlain;
    var groups := [BASE_TAIL[..2], BASE_TAIL[2..4], BASE_TAIL[4..6], BASE_TAIL[6..]];
    TailWritten();
    HyphenatedStripped(LOWER, groups);
    var text := Hyphenated(LOWER, groups);
    assert Concat(groups) == BASE_TAIL by {
      assert groups[3..] == [BASE_TAIL[6..]] && Concat(groups[3..]) == BASE_TAIL[6..];
      assert Concat(groups[2..]) == BASE_TAIL[4..] && Concat(groups[1..]) == BASE_TAIL[2..];
    }
    EmptyIsPlain();
    StripHyphen("", text);
    assert TAIL == "" + "-" + text && "" + Strip(text) == Strip(text);
    assert Strip(TAIL) == Hex(LOWER, BASE_TAIL);
    HexIsPlain(LOWER, BASE_TAIL);
    forall i | 0 <= i < 12
      ensures Pair(Hex(LOWER, BASE_TAIL), i) == Some(BASE_TAIL[i] as int)
    {
      HexPair(LOWER, BASE_TAIL, i);
      Hex2RoundTrip(BASE_TAIL[i]);
    }
  }

  lemma EmptyIsPlain()
    ensures IsPlain("")
  {
  }

  lemma TailWritten()
    ensures TAIL == "-" + Hyphenated(LOWER, [BASE_TAIL[..2], BASE_TAIL[2..4], BASE_TAIL[4..6], BASE_TAIL[6..]])
  {
    hide Hex;
    var groups := [BASE_TAIL[..2], BASE_TAIL[2..4], BASE_TAIL[4..6], BASE_TAIL[6..]];
    TailGroups();
    assert Hyphenated(LOWER, groups[1..][1..][1..]) == Hex(LOWER, groups[3]);
    assert Hyphenated(LOWER, groups[1..][1..]) == Hex(LOWER, groups[2]) + "-" + Hex(LOWER, groups[3]);
    assert TAIL == "-" + "0000" + "-" + "1000" + "-" + "8000" + "-" + ("00805f" + "9b34fb");
  }

  lemma TailGroups()
    ensures Hex(LOWER, BASE_TAIL[..2]) == "0000" && Hex(LOWER, BASE_TAIL[2..4]) == "1000"
    ensures Hex(LOWER, BASE_TAIL[4..6]) == "8000" && Hex(LOWER, BASE_TAIL[6..]) == "00805f" + "9b34fb"
  {
    HexAppend(LOWER, [0x00, 0x80, 0x5F], [0x9B, 0x34, 0xFB]);
    assert BASE_TAIL[6..] == [0x00, 0x80, 0x5F] + [0x9B, 0x34, 0xFB];
  }

  /** The last pair of an accepted number is its low byte, the rest the number above it. */
  lemma LastPair(t: string, limit: nat)
    requires |t| >= 4 && FromStrRadix16(t, limit).Some?
    ensures var n := |t| - 2;
            && FromStrRadix16(t[..n], limit).Some? && FromStrRadix16(t[n..], 256).Some?
            && FromStrRadix16(t, limit).value
               == 256 * FromStrRadix16(t[..n], limit).value + FromStrRadix16(t[n..], 256).value
  {
    hide DigitValue, DigitsValue;
    var n := |t| - 2;
    var digits := if t[0] == '+' then t[1..] else t;
    var front := digits[..|digits| - 2];
    assert digits == front + [t[n], t[n + 1]];
    LastDigits(front, t[n], t[n + 1]);
    TwoCharByte(t[n], t[n + 1]);
    assert t[n..] == [t[n], t[n + 1]];
    PlusIsNoDigit();
    assert front == if t[0] == '+' then t[..n][1..] else t[..n];
  }

  lemma LastDigits(front: string, a: char, b: char)
    requires DigitsValue(front + [a, b]).Some?
    ensures DigitsValue(front).Some? && DigitValue(a).Some? && DigitValue(b).Some?
    ensures DigitsValue(front + [a, b]).value
         == 256 * DigitsValue(front).value + 16 * DigitValue(a).value + DigitValue(b).value
  {
    hide DigitValue;
    var digits := front + [a, b];
    assert digits[..|digits| - 1] == front + [a];
    assert (front + [a])[..|front|] == front;
    assert DigitsValue(front + [a]).Some?;
  }

  lemma OnePair(t: string, limit: nat)
    requires |t| == 2 && FromStrRadix16(t, limit).Some?
    ensures FromStrRadix16(t, 256) == FromStrRadix16(t, limit)
  {
    TwoCharByte(t[0], t[1]);
    TwoDigits(t[0], t[1]);
    assert [t[1]][..0] == "" && DigitsValue([t[1]]) == DigitValue(t[1]);
    assert t == [t[0], t[1]] && t[1..] == [t[1]];
  }

  lemma TwoPairs(t: string, limit: nat)
    requires |t| == 4 && FromStrRadix16(t, limit).Some?
    ensures Pair(t, 0).Some? && Pair(t, 1).Some?
    ensures FromStrRadix16(t, limit).value == 256 * Pair(t, 0).value + Pair(t, 1).value
  {
    hide FromStrRadix16;
    LastPair(t, limit);
    OnePair(t[..2], limit);
    assert t[..2] == t[0..2] && t[2..] == t[2..4];
  }

  lemma FourPairs(t: string, limit: nat)
    requires |t| == 8 && FromStrRadix16(t, limit).Some?
    ensures forall i :: 0 <= i < 4 ==> Pair(t, i).Some?
    ensures FromStrRadix16(t, limit).value
         == 256 * (256 * (256 * Pair(t, 0).value + Pair(t, 1).value) + Pair(t, 2).value) + Pair(t, 3).value
  {
    hide FromStrRadix16;
    LastPair(t, limit);
    LastPair(t[..6], limit);
    assert t[..6][..4] == t[..4];
    TwoPairs(t[..4], limit);
    assert t[..6][4..] == t[4..6] && t[6..] == t[6..8];
    assert t[..4][0..2] == t[0..2] && t[..4][2..4] == t[2..4];
  }

  lemma Be32Of(a: byte, b: byte, c: byte, d: byte)
    ensures Be32(256 * (256 * (256 * a as int + b as int) + c as int) + d as int) == [a, b, c, d]
  {
    hide Be16;
    var high: int, low: int := 256 * a as int + b as int, 256 * c as int + d as int;
    var v: int := 65536 * high + low;
    QuotientIs(v, 65536, high);
    Be16Of(0, a, b);
    Be16Of(high, c, d);
    assert v == 256 * (256 * (256 * a as int + b as int) + c as int) + d as int;
  }

  lemma Be16Of(high: nat, a: byte, b: byte)
    ensures Be16(65536 * high + 256 * a as int + b as int) == [a, b]
  {
    var v: int := 65536 * high + 256 * a as int + b as int;
    QuotientIs(v, 256, 256 * high + a as int);
    assert v == 256 * (v / 256) + b as int;
    assert v / 256 == 256 * high + a as int;
  }

  /** Eight characters of four accepted pairs, followed by the tail. */
  lemma Expanded(t: string, four: seq<byte>)
    requires |t| == 8 && IsPlain(t) && |four| == 4
    requires forall i :: 0 <= i < 4 ==> Pair(t, i) == Some(four[i] as int)
    ensures Parse(t + TAIL) == Parsed(four + BASE_TAIL)
  {
    hide Strip, FromStrRadix16, FromU32;
    TailBytes();
    var tail := Strip(TAIL);
    StripAppend(t, TAIL);
    Plain(t);
    var all := t + tail;
    Plain(all);
    forall i | 0 <= i < 16
      ensures Pair(all, i) == Some((four + BASE_TAIL)[i] as int)
    {
      if i < 4 {
        assert all[2 * i..2 * i + 2] == t[2 * i..2 * i + 2];
        assert Pair(t, i).Some?;
      } else {
        assert all[2 * i..2 * i + 2] == tail[2 * (i - 4)..2 * (i - 4) + 2];
        assert Pair(tail, i - 4).Some?;
      }
    }
    assert LongForm(all).Parsed?;
    assert LongForm(all).uuid == four + BASE_TAIL;
  }

  /** Accepted short text is plain once its hyphens are gone. */
  lemma {:induction false} ShortIsPlain(t: string)
    requires DigitsValue(t).Some?
    ensures IsPlain(t)
  {
    if t != "" {
      ShortIsPlain(t[..|t| - 1]);
      assert t == t[..|t| - 1] + [t[|t| - 1]];
    }
  }

  lemma AcceptedIsPlain(t: string, limit: nat)
    requires FromStrRadix16(t, limit).Some?
    ensures IsPlain(t) && ByteLen(t) == |t| && Strip(t) == t
  {
    hide DigitsValue, IsPlain;
    var digits := if |t| > 0 && t[0] == '+' then t[1..] else t;
    ShortIsPlain(digits);
    PlusIsPlain(digits);
    assert t == digits || t == ['+'] + digits;
    Plain(t);
  }

  lemma PlusIsPlain(t: string)
    requires IsPlain(t)
    ensures IsPlain(['+'] + t)
  {
  }

  lemma EightPlain(t: string)
    requires |t| == 8 && FromStrRadix16(t, 0x1_0000_0000).Some?
    ensures Parse(t + TAIL) == Parsed(FromU32(FromStrRadix16(t, 0x1_0000_0000).value))
  {
    hide Strip, FromStrRadix16, Be32, LongForm, ByteLen, Pair, IsPlain;
    AcceptedIsPlain(t, 0x1_0000_0000);
    FourPairs(t, 0x1_0000_0000);
    Be32Of(Pair(t, 0).value, Pair(t, 1).value, Pair(t, 2).value, Pair(t, 3).value);
    Expanded(t, [Pair(t, 0).value, Pair(t, 1).value, Pair(t, 2).value, Pair(t, 3).value]);
  }

  lemma FourPlain(t: string)
    requires |t| == 4 && FromStrRadix16(t, 65536).Some?
    ensures Parse("0000" + t + TAIL) == Parsed(FromU32(FromStrRadix16(t, 65536).value))
  {
    hide Strip, FromStrRadix16, Be32, LongForm, ByteLen;
    AcceptedIsPlain(t, 65536);
    TwoPairs(t, 65536);
    Be32Of(0, 0, Pair(t, 0).value, Pair(t, 1).value);
    var long := "0000" + t;
    TwoZeros();
    assert long[0..2] == "00" && long[2..4] == "00";
    assert long[4..6] == t[0..2] && long[6..8] == t[2..4];
    Expanded(long, [0, 0, Pair(t, 0).value, Pair(t, 1).value]);
  }

  /** Parsing does not see hyphens. */
  lemma HyphensDropped(before: string, s: string, after: string)
    ensures Parse(before + s + after) == Parse(before + Strip(s) + after)
  {
    hide Strip, ByteLen, ShortForm, LongForm;
    StrippedTwice(s);
    StripAppend(before + s, after);
    StripAppend(before, s);
    StripAppend(before + Strip(s), after);
    StripAppend(before, Strip(s));
  }

  lemma {:induction false} StrippedTwice(s: string)
    ensures Strip(Strip(s)) == Strip(s)
  {
    if s != "" {
      StrippedTwice(s[1..]);
      assert s[0] != '-' ==> ([s[0]] + Strip(s[1..]))[1..] == Strip(s[1..]);
    }
  }

  /** An accepted form of eight digits, wherever its hyphens are, is the UUID its expansion over the
      Base UUID is. */
  lemma EightExpands(s: string)
    requires Parse(s).Parsed? && ByteLen(Strip(s)) == 8
    ensures Parse(s + TAIL) == Parse(s)
  {
    hide Strip, FromStrRadix16, FromU32, LongForm, ByteLen;
    var t := Strip(s);
    AcceptedIsPlain(t, 0x1_0000_0000);
    EightPlain(t);
    HyphensDropped("", s, TAIL);
    assert "" + s + TAIL == s + TAIL && "" + t + TAIL == t + TAIL;
  }

  /** And so is an accepted form of four digits. */
  lemma FourExpands(s: string)
    requires Parse(s).Parsed? && ByteLen(Strip(s)) == 4
    ensures Parse("0000" + s + TAIL) == Parse(s)
  {
    hide Strip, FromStrRadix16, FromU32, LongForm, ByteLen;
    var t := Strip(s);
    AcceptedIsPlain(t, 65536);
    FourPlain(t);
    HyphensDropped("0000", s, TAIL);
  }

  lemma TwoZeros()
    ensures FromStrRadix16("00", 256) == Some(0)
  {
    TwoCharByte('0', '0');
  }

  // ---------------------------------------------------------------- exactly what is accepted

  lemma ShortLimits()
    ensures Pow16(4) == 65536 && Pow16(8) == 0x1_0000_0000
  {
    assert Pow16(2) == 256 && Pow16(4) == 65536 && Pow16(6) == 0x100_0000;
  }

  /** Text that is four or eight bytes without its hyphens is accepted exactly when it is a number in
      hexadecimal, of either case; text of any length but these and 32 never is. */
  lemma ShortFormIff(s: string)
    ensures ByteLen(Strip(s)) in {4, 8} ==>
              (Parse(s).Parsed? <==> IsNumber(Strip(s))) && !Parse(s).Panics?
    ensures ByteLen(Strip(s)) !in {4, 8, 32} ==> Parse(s).Invalid?
  {
    hide ByteLen, Strip, FromStrRadix16, IsNumber, FromU32, LongForm, Pow16;
    var t := Strip(s);
    ShortLimits();
    if ByteLen(t) == 4 {
      NumberIff(t, 4, 65536);
    } else if ByteLen(t) == 8 {
      NumberIff(t, 8, 0x1_0000_0000);
    }
  }

  /** Two characters that stand for a byte: two digits, or a `+` and one. */
  predicate SpellsByte(x: char, y: char, v: byte) {
    && DigitValue(y).Some?
    && if x == '+' then v == DigitValue(y).value
       else DigitValue(x).Some? && v == 16 * DigitValue(x).value + DigitValue(y).value
  }

  predicate SpellsUuid(t: string, u: UuidBytes) {
    |t| == 32 && forall i :: 0 <= i < 16 ==> SpellsByte(t[2 * i], t[2 * i + 1], u[i])
  }

  lemma PairSpells(t: string, i: nat, v: byte)
    requires 2 * i + 2 <= |t|
    ensures Pair(t, i) == Some(v as int) <==> SpellsByte(t[2 * i], t[2 * i + 1], v)
  {
    hide FromStrRadix16, DigitValue;
    TwoCharByte(t[2 * i], t[2 * i + 1]);
    assert t[2 * i..2 * i + 2] == [t[2 * i], t[2 * i + 1]];
    PlusIsNoDigit();
  }

  lemma DigitIsNarrow(c: char)
    requires DigitValue(c).Some? || c == '+'
    ensures Width(c) == 1
  {
  }

  lemma SpellingIsAscii(t: string, u: UuidBytes)
    requires SpellsUuid(t, u)
    ensures Ascii(t) == |t|
  {
    hide Ascii, Width, DigitValue;
    forall k | 0 <= k < |t|
      ensures Width(t[k]) == 1
    {
      var i := k / 2;
      assert SpellsByte(t[2 * i], t[2 * i + 1], u[i]);
      assert k == 2 * i || k == 2 * i + 1;
      DigitIsNarrow(t[k]);
    }
  }

  /** Text that is 32 bytes without its hyphens is read as a UUID exactly when its sixteen pairs spell
      the bytes. */
  lemma LongFormIff(s: string, u: UuidBytes)
    requires ByteLen(Strip(s)) == 32
    ensures Parse(s) == Parsed(u) <==> SpellsUuid(Strip(s), u)
  {
    hide Strip, ByteLen, Ascii, SpellsByte, Pair, FromStrRadix16;
    var t := Strip(s);
    if Parse(s) == Parsed(u) {
      assert Ascii(t) == |t|;
      ByteLenOfAscii(t);
      forall i | 0 <= i < 16
        ensures SpellsByte(t[2 * i], t[2 * i + 1], u[i])
      {
        assert Pair(t, i).Some?;
        PairSpells(t, i, u[i]);
      }
    }
    if SpellsUuid(t, u) {
      SpellingIsAscii(t, u);
      forall i | 0 <= i < 16
        ensures Pair(t, i) == Some(u[i] as int)
      {
        PairSpells(t, i, u[i]);
      }
      assert LongForm(t).Parsed?;
      assert LongForm(t).uuid == u;
    }
  }

  /** The bytes of a character in UTF-8 (section 3 of RFC 3629), as numbers. */
  function Utf8(v: int): seq<int> {
    if v < 0x80 then [v]
    else if v < 0x800 then [0xC0 + v / 64, 0x80 + v % 64]
    else if v < 0x10000 then [0xE0 + v / 64 / 64, 0x80 + v / 64 % 64, 0x80 + v % 64]
    else [0xF0 + v / 64 / 64 / 64, 0x80 + v / 64 / 64 % 64, 0x80 + v / 64 % 64, 0x80 + v % 64]
  }

  /** The lead byte says how many bytes there are, and the others carry six bits each. */
  function FromUtf8(b: seq<int>): int {
    if |b| == 1 && b[0] < 0x80 then b[0]
    else if |b| == 2 && 0xC0 <= b[0] < 0xE0 then (b[0] - 0xC0) * 64 + (b[1] - 0x80)
    else if |b| == 3 && 0xE0 <= b[0] < 0xF0 then ((b[0] - 0xE0) * 64 + (b[1] - 0x80)) * 64 + (b[2] - 0x80)
    else if |b| == 4 && 0xF0 <= b[0] < 0xF8 then
      (((b[0] - 0xF0) * 64 + (b[1] - 0x80)) * 64 + (b[2] - 0x80)) * 64 + (b[3] - 0x80)
    else -1
  }

  lemma SixBits(v: nat)
    ensures v == v / 64 * 64 + v % 64
  {
  }

  /** Widths are those of UTF-8. */
  lemma WidthIsUtf8(c: char)
    ensures FromUtf8(Utf8(c as int)) == c as int && Width(c) == |Utf8(c as int)|
  {
    var v := c as int;
    SixBits(v);
    SixBits(v / 64);
    SixBits(v / 64 / 64);
  }
}
