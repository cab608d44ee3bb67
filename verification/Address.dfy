/** Printing and parsing device addresses. */
module Address {
  import opened Bytes
  import opened HexText
  import opened Events

  // ---------------------------------------------------------------- splitting and trimming

  /** `str::split`: the pieces between separators. */
  function Split(s: string, sep: char): (parts: seq<string>)
    ensures |parts| >= 1
  {
    if s == "" then [""]
    else
      var rest := Split(s[1..], sep);
      if s[0] == sep then [""] + rest else [[s[0]] + rest[0]] + rest[1..]
  }

  function Join(parts: seq<string>, sep: char): string
    requires |parts| >= 1
  {
    if |parts| == 1 then parts[0] else parts[0] + [sep] + Join(parts[1..], sep)
  }

  lemma SplitPiece(piece: string, rest: string, sep: char)
    requires sep !in piece
    ensures Split(piece + [sep] + rest, sep) == [piece] + Split(rest, sep)
    ensures Split(piece, sep) == [piece]
  {
    if piece == "" {
      assert piece + [sep] + rest == [sep] + rest;
      assert ([sep] + rest)[1..] == rest;
    } else {
      assert (piece + [sep] + rest)[1..] == piece[1..] + [sep] + rest;
      SplitPiece(piece[1..], rest, sep);
      assert [piece[0]] + piece[1..] == piece;
    }
  }

  /** Splitting undoes joining. */
  lemma {:induction false} SplitOfJoin(parts: seq<string>, sep: char)
    requires |parts| >= 1 && forall p <- parts :: sep !in p
    ensures Split(Join(parts, sep), sep) == parts
  {
    hide Split;
    if |parts| == 1 {
      SplitPiece(parts[0], "", sep);
    } else {
      SplitOfJoin(parts[1..], sep);
      SplitPiece(parts[0], Join(parts[1..], sep), sep);
    }
  }

  lemma JoinCons(p: string, rest: seq<string>, sep: char)
    requires |rest| >= 1
    ensures Join([p], sep) == p && Join([p] + rest, sep) == p + [sep] + Join(rest, sep)
  {
  }

  /** A character in front of the first piece comes in front of the whole. */
  lemma JoinLonger(c: char, parts: seq<string>, sep: char)
    requires |parts| >= 1
    ensures Join([[c] + parts[0]] + parts[1..], sep) == [c] + Join(parts, sep)
  {
    hide Join;
    JoinCons(parts[0], [""], sep);
    JoinCons([c] + parts[0], [""], sep);
    if |parts| > 1 {
      JoinCons(parts[0], parts[1..], sep);
      JoinCons([c] + parts[0], parts[1..], sep);
      assert [parts[0]] + parts[1..] == parts;
      assert [c] + (parts[0] + [sep] + Join(parts[1..], sep)) == [c] + parts[0] + [sep] + Join(parts[1..], sep);
    } else {
      assert parts == [parts[0]] && [[c] + parts[0]] + parts[1..] == [[c] + parts[0]];
    }
  }

  /** Joining undoes splitting, and no piece holds the separator; with `SplitOfJoin` this leaves
      one way to split. */
  lemma {:induction false} JoinOfSplit(s: string, sep: char)
    ensures Join(Split(s, sep), sep) == s
    ensures forall p <- Split(s, sep) :: sep !in p
  {
    hide Join;
    if s != "" {
      JoinOfSplit(s[1..], sep);
      var rest := Split(s[1..], sep);
      if s[0] == sep {
        JoinCons("", rest, sep);
        assert "" + [sep] + s[1..] == s;
      } else {
        JoinLonger(s[0], rest, sep);
        assert [s[0]] + s[1..] == s;
      }
    } else {
      JoinCons("", [""], sep);
    }
  }

  /** `char::is_whitespace`. */
  predicate IsWhitespace(c: char) {
    '\t' <= c <= '\r' || c in {' ', '\U{85}', '\U{A0}', '\U{1680}'}
    || '\U{2000}' <= c <= '\U{200A}'
    || c in {'\U{2028}', '\U{2029}', '\U{202F}', '\U{205F}', '\U{3000}'}
  }

  /** The characters with the property White_Space of the Unicode Standard. */
  lemma WhitespaceIs(c: char)
    ensures IsWhitespace(c) <==>
              c as int in {9, 10, 11, 12, 13, 32, 0x85, 0xA0, 0x1680, 0x2000, 0x2001, 0x2002, 0x2003, 0x2004, 0x2005, 0x2006,
                           0x2007, 0x2008, 0x2009, 0x200A, 0x2028, 0x2029, 0x202F, 0x205F, 0x3000}
  {
  }

  function TrimStart(s: string): string {
    if s != "" && IsWhitespace(s[0]) then TrimStart(s[1..]) else s
  }

  function TrimEnd(s: string): string {
    if s != "" && IsWhitespace(s[|s| - 1]) then TrimEnd(s[..|s| - 1]) else s
  }

  function Trim(s: string): string {
    TrimEnd(TrimStart(s))
  }

  predicate Blank(s: string) {
    forall c <- s :: IsWhitespace(c)
  }

  predicate Bare(s: string) {
    s != "" && !IsWhitespace(s[0]) && !IsWhitespace(s[|s| - 1])
  }

  lemma {:induction false} TrimEndOf(core: string, after: string)
    requires Bare(core) && Blank(after)
    ensures TrimEnd(core + after) == core
  {
    if after == "" {
      assert core + after == core;
    } else {
      assert (core + after)[..|core + after| - 1] == core + after[..|after| - 1];
      TrimEndOf(core, after[..|after| - 1]);
    }
  }

  /** Whitespace on either side is dropped, and nothing else. */
  lemma {:induction false} TrimOf(before: string, core: string, after: string)
    requires Blank(before) && Bare(core) && Blank(after)
    ensures Trim(before + core + after) == core
    decreases before
  {
    hide IsWhitespace;
    if before == "" {
      assert before + core + after == core + after;
      assert (core + after)[0] == core[0];
      TrimEndOf(core, after);
    } else {
      assert (before + core + after)[1..] == before[1..] + core + after;
      TrimOf(before[1..], core, after);
    }
  }

  // ---------------------------------------------------------------- what is accepted

  /** An octet: two hexadecimal digits, or a `+` and one. */
  predicate IsOctet(part: string) {
    var t := Trim(part);
    |t| == 2 && DigitValue(t[1]).Some? && (t[0] == '+' || DigitValue(t[0]).Some?)
  }

  function Octet(part: string): (v: byte)
    requires IsOctet(part)
  {
    var t := Trim(part);
    (if t[0] == '+' then 0 else 16 * DigitValue(t[0]).value) + DigitValue(t[1]).value
  }

  /** A colon anywhere makes it the separator. */
  function Separator(s: string): Option<char> {
    if ':' in s then Some(':') else if '-' in s then Some('-') else None
  }

  predicate SixOctets(parts: seq<string>) {
    |parts| == 6 && forall p <- parts :: IsOctet(p)
  }

  function Octets(parts: seq<string>): (octets: seq<byte>)
    requires forall p <- parts :: IsOctet(p)
    ensures |octets| == |parts|
  {
    seq(|parts|, i requires 0 <= i < |parts| => Octet(parts[i]))
  }

  /** The address a string stands for: six octets between separators. */
  function Parse(s: string): Option<BdAddr> {
    match Separator(s)
    case None => None
    case Some(sep) =>
      var parts := Split(s, sep);
      if SixOctets(parts) then Some(Octets(parts)) else None
  }

  /** The check the loop makes of one piece: its number first, then its width. */
  lemma OctetCheck(part: string)
    ensures IsOctet(part) <==> FromStrRadix16(Trim(part), 256).Some? && |Trim(part)| == 2
    ensures IsOctet(part) ==> FromStrRadix16(Trim(part), 256) == Some(Octet(part))
  {
    hide Trim, FromStrRadix16, DigitValue;
    var t := Trim(part);
    if |t| == 2 {
      TwoCharByte(t[0], t[1]);
      assert t == [t[0], t[1]];
      PlusIsNoDigit();
    }
  }

  /** `from_str`. */
  method FromStr(s: string) returns (r: Option<BdAddr>)
    ensures r == Parse(s)
  {
    hide Split, Trim, IsOctet, Octet, FromStrRadix16;
    var sep;
    if ':' in s {
      sep := ':';
    } else if '-' in s {
      sep := '-';
    } else {
      return None;
    }
    var octets := new byte[6](_ => 0);
    var count := 0;
    var parts := Split(s, sep);
    for i := 0 to |parts|
      invariant count == i <= 6
      invariant forall k :: 0 <= k < i ==> IsOctet(parts[k]) && octets[k] == Octet(parts[k])
    {
      OctetCheck(parts[i]);
      if count >= 6 {
        return None;
      }
      var value := FromStrRadix16(Trim(parts[i]), 256);
      if value.None? {
        return None;
      }
      if |Trim(parts[i])| != 2 {
        return None;
      }
      octets[count] := value.value;
      count := count + 1;
    }
    if count != 6 {
      return None;
    }
    assert octets[..] == Octets(parts);
    return Some(octets[..]);
  }

  // ---------------------------------------------------------------- round trips

  lemma {:induction false} InJoin(parts: seq<string>, sep: char, c: char)
    requires |parts| >= 1 && c != sep
    ensures c in Join(parts, sep) <==> exists p <- parts :: c in p
  {
    if |parts| > 1 {
      InJoin(parts[1..], sep, c);
      assert parts == [parts[0]] + parts[1..];
    }
  }

  /** Six acceptable pieces are read back from either separator. */
  lemma ParseOfJoin(parts: seq<string>, sep: char)
    requires SixOctets(parts) && sep in {':', '-'}
    requires forall p <- parts :: ':' !in p && '-' !in p
    ensures Parse(Join(parts, sep)) == Some(Octets(parts))
  {
    hide IsOctet, Octet, Split;
    var s := Join(parts, sep);
    SplitOfJoin(parts, sep);
    assert s[|parts[0]|] == sep;
    if sep == '-' {
      InJoin(parts, '-', ':');
    }
  }

  /** An address written out with the given digits. */
  function Pieces(digits: string, a: seq<byte>): (parts: seq<string>)
    requires |digits| == 16
    ensures |parts| == |a|
  {
    seq(|a|, i requires 0 <= i < |a| => Hex2(digits, a[i]))
  }

  lemma HexPiece(digits: string, b: byte)
    requires digits == UPPER || digits == LOWER
    ensures IsOctet(Hex2(digits, b)) && Octet(Hex2(digits, b)) == b
    ensures ':' !in Hex2(digits, b) && '-' !in Hex2(digits, b)
  {
    var p := Hex2(digits, b);
    DigitOf(b / 16);
    DigitOf(b % 16);
    DigitIsPlain(p[0]);
    DigitIsPlain(p[1]);
    assert Bare(p);
    assert "" + p + "" == p;
    TrimOf("", p, "");
  }

  lemma DigitIsPlain(c: char)
    requires DigitValue(c).Some?
    ensures !IsWhitespace(c) && c != ':' && c != '-'
  {
  }

  /** Every address is read back from its colon or dash form in upper or lower case. */
  lemma WrittenThenRead(a: BdAddr, digits: string, sep: char)
    requires digits in {UPPER, LOWER} && sep in {':', '-'}
    ensures Parse(Join(Pieces(digits, a), sep)) == Some(a)
  {
    hide IsOctet, Octet, Join, Parse, Hex2;
    var parts := Pieces(digits, a);
    forall i | 0 <= i < 6
      ensures IsOctet(parts[i]) && Octet(parts[i]) == a[i] && ':' !in parts[i] && '-' !in parts[i]
    {
      HexPiece(digits, a[i]);
    }
    assert SixOctets(parts);
    assert Octets(parts) == a;
    ParseOfJoin(parts, sep);
  }

  lemma {:induction false} PrintedForm(a: seq<byte>)
    requires a != []
    ensures AddrText(a) == Join(Pieces(UPPER, a), ':')
  {
    if |a| > 1 {
      PrintedForm(a[1..]);
      assert Pieces(UPPER, a)[1..] == Pieces(UPPER, a[1..]);
    }
  }

  /** Printing is undone by parsing; so whatever text an address was read from, printing it and
      reading that again gives the address, and no two addresses print alike. */
  lemma PrintThenParse(a: BdAddr)
    ensures Parse(AddrText(a)) == Some(a)
  {
    PrintedForm(a);
    WrittenThenRead(a, UPPER, ':');
  }

  // ---------------------------------------------------------------- two digits wide, or nearly

  /** Both characters of every piece are digits. */
  predicate TwoDigitPieces(s: string)
    requires Parse(s).Some?
  {
    forall p <- Split(s, Separator(s).value) :: DigitValue(Trim(p)[0]).Some?
  }

  lemma {:induction false} InTrimStart(s: string, c: char)
    requires !IsWhitespace(c)
    ensures c in TrimStart(s) <==> c in s
  {
    if s != "" && IsWhitespace(s[0]) {
      InTrimStart(s[1..], c);
      assert s == [s[0]] + s[1..];
    }
  }

  lemma {:induction false} InTrimEnd(s: string, c: char)
    requires !IsWhitespace(c)
    ensures c in TrimEnd(s) <==> c in s
  {
    if s != "" && IsWhitespace(s[|s| - 1]) {
      InTrimEnd(s[..|s| - 1], c);
      assert s == s[..|s| - 1] + [s[|s| - 1]];
    }
  }

  lemma PlusInOctet(p: string)
    requires IsOctet(p)
    ensures DigitValue(Trim(p)[0]).Some? <==> '+' !in p
  {
    hide TrimStart, TrimEnd;
    InTrimStart(p, '+');
    InTrimEnd(TrimStart(p), '+');
    PlusIsNoDigit();
    var t := Trim(p);
    assert t == [t[0], t[1]];
  }

  /** The width check means to admit two-digit pieces only. Of the strings accepted, exactly those
      without a `+` keep to that. */
  lemma TwoDigitsIffNoPlus(s: string)
    requires Parse(s).Some?
    ensures TwoDigitPieces(s) <==> '+' !in s
  {
    hide Octet, Trim, DigitValue;
    var sep := Separator(s).value;
    var parts := Split(s, sep);
    JoinOfSplit(s, sep);
    InJoin(parts, sep, '+');
    forall p <- parts
      ensures DigitValue(Trim(p)[0]).Some? <==> '+' !in p
    {
      PlusInOctet(p);
    }
  }

  /** Every address whose first octet is below 16 has an accepted spelling with a `+`, such as
      `+A:BB:CC:DD:EE:FF`. */
  lemma PlusSpelling(a: BdAddr)
    requires a[0] < 16
    ensures Parse(Join([['+', UPPER[a[0]]]] + Pieces(UPPER, a[1..]), ':')) == Some(a)
  {
    hide IsOctet, Octet, Join, Parse, Hex2;
    var parts := [['+', UPPER[a[0]]]] + Pieces(UPPER, a[1..]);
    forall i | 0 <= i < 6
      ensures IsOctet(parts[i]) && Octet(parts[i]) == a[i] && ':' !in parts[i] && '-' !in parts[i]
    {
      if i == 0 {
        PlusPiece(a[0]);
      } else {
        HexPiece(UPPER, a[i]);
      }
    }
    assert Octets(parts) == a;
    ParseOfJoin(parts, ':');
  }

  lemma PlusPiece(v: byte)
    requires v < 16
    ensures var p := ['+', UPPER[v]];
            && IsOctet(p) && Octet(p) == v && ':' !in p && '-' !in p
  {
    hide Trim;
    var p := ['+', UPPER[v]];
    DigitOf(v);
    DigitIsPlain(p[1]);
    assert Bare(p);
    assert "" + p + "" == p;
    TrimOf("", p, "");
  }

  // ---------------------------------------------------------------- exactly what is accepted

  /** Two characters between blanks that stand for an octet: two digits, or a `+` and one. */
  predicate Spells(part: string, v: int, before: string, x: char, y: char, after: string) {
    && Blank(before) && Blank(after) && part == before + [x, y] + after
    && DigitValue(y).Some?
    && if x == '+' then v == DigitValue(y).value
       else DigitValue(x).Some? && v == 16 * DigitValue(x).value + DigitValue(y).value
  }

  ghost predicate Reads(part: string, v: int) {
    exists before, x, y, after :: Spells(part, v, before, x, y, after)
  }

  lemma {:induction false} TrimStartShape(s: string) returns (before: string)
    ensures Blank(before) && s == before + TrimStart(s)
    ensures TrimStart(s) != "" ==> !IsWhitespace(TrimStart(s)[0])
  {
    hide IsWhitespace;
    if s != "" && IsWhitespace(s[0]) {
      var rest := TrimStartShape(s[1..]);
      before := [s[0]] + rest;
    } else {
      before := "";
    }
  }

  lemma {:induction false} TrimEndShape(s: string) returns (after: string)
    ensures Blank(after) && s == TrimEnd(s) + after
  {
    hide IsWhitespace;
    if s != "" && IsWhitespace(s[|s| - 1]) {
      var rest := TrimEndShape(s[..|s| - 1]);
      after := rest + [s[|s| - 1]];
    } else {
      after := "";
    }
  }

  lemma SpelledIsOctet(part: string, v: int, before: string, x: char, y: char, after: string)
    requires Spells(part, v, before, x, y, after)
    ensures IsOctet(part) && Octet(part) == v && ':' !in part && '-' !in part
  {
    hide TrimStart, TrimEnd, Trim;
    DigitIsPlain(y);
    if x != '+' {
      DigitIsPlain(x);
    }
    BlankIsPlain(before);
    BlankIsPlain(after);
    assert Bare([x, y]);
    TrimOf(before, [x, y], after);
  }

  lemma BlankIsPlain(s: string)
    requires Blank(s)
    ensures ':' !in s && '-' !in s
  {
  }

  lemma OctetIsSpelled(part: string)
    requires IsOctet(part)
    ensures Reads(part, Octet(part))
  {
    hide TrimStart, TrimEnd, IsWhitespace, DigitValue, Blank;
    var before := TrimStartShape(part);
    var after := TrimEndShape(TrimStart(part));
    var t := Trim(part);
    assert t == [t[0], t[1]];
    assert before + ([t[0], t[1]] + after) == before + [t[0], t[1]] + after;
    assert Spells(part, Octet(part), before, t[0], t[1], after);
  }

  /** Six pieces between colons, or between hyphens, each of which reads as one octet of the address. */
  ghost predicate Spelling(s: string, a: BdAddr, sep: char, parts: seq<string>) {
    && sep in {':', '-'} && |parts| == 6 && s == Join(parts, sep)
    && forall i :: 0 <= i < 6 ==> Reads(parts[i], a[i])
  }

  lemma SpellingParses(s: string, a: BdAddr, sep: char, parts: seq<string>)
    requires Spelling(s, a, sep, parts)
    ensures Parse(s) == Some(a)
  {
    hide Parse, Join, IsOctet, Octet;
    forall i | 0 <= i < 6
      ensures IsOctet(parts[i]) && Octet(parts[i]) == a[i] && ':' !in parts[i] && '-' !in parts[i]
    {
      var before, x, y, after :| Spells(parts[i], a[i], before, x, y, after);
      SpelledIsOctet(parts[i], a[i], before, x, y, after);
    }
    ParseOfJoin(parts, sep);
    assert Octets(parts) == a;
  }

  /** A text is read as an address exactly when it spells that address. */
  lemma AcceptedIff(s: string, a: BdAddr)
    ensures Parse(s) == Some(a) <==> exists sep, parts :: Spelling(s, a, sep, parts)
  {
    hide Join, Split, IsOctet, Octet, Reads;
    if Parse(s) == Some(a) {
      var sep := Separator(s).value;
      var parts := Split(s, sep);
      JoinOfSplit(s, sep);
      forall i | 0 <= i < 6
        ensures Reads(parts[i], a[i])
      {
        assert parts[i] in parts;
        OctetIsSpelled(parts[i]);
      }
      assert Spelling(s, a, sep, parts);
    }
    forall sep, parts | Spelling(s, a, sep, parts)
      ensures Parse(s) == Some(a)
    {
      SpellingParses(s, a, sep, parts);
    }
  }
}
