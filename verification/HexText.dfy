/** Hexadecimal digits, and integers parsed the way `from_str_radix(_, 16)` parses them. */
module HexText {
  import opened Bytes

  const UPPER: string := "0123456789ABCDEF"
  const LOWER: string := "0123456789abcdef"

  /** `{:02X}` or `{:02x}`. */
  function Hex2(digits: string, b: byte): (s: string)
    requires |digits| == 16
    ensures |s| == 2
  {
    [digits[b / 16], digits[b % 16]]
  }

  function DigitValue(c: char): (v: Option<nat>)
    ensures v.Some? ==> v.value < 16
  {
    if '0' <= c <= '9' then Some(c as int - '0' as int)
    else if 'a' <= c <= 'f' then Some(c as int - 'a' as int + 10)
    else if 'A' <= c <= 'F' then Some(c as int - 'A' as int + 10)
    else None
  }

  /** The value of a digit string; `None` on any character that is not a digit. */
  function DigitsValue(s: string): (v: Option<nat>) {
    if s == "" then Some(0)
    else match DigitsValue(s[..|s| - 1])
      case None => None
      case Some(high) =>
        match DigitValue(s[|s| - 1])
        case None => None
        case Some(low) => Some(16 * high + low)
  }

  /** `from_str_radix(s, 16)` of an unsigned type below `limit`: one leading `+` is tolerated, a
      `-` is not, and there must be a digit. */
  function FromStrRadix16(s: string, limit: nat): (v: Option<nat>)
    ensures v.Some? ==> v.value < limit
  {
    var digits := if |s| > 0 && s[0] == '+' then s[1..] else s;
    if digits == "" then None
    else match DigitsValue(digits)
      case None => None
      case Some(n) => if n < limit then Some(n) else None
  }

  lemma DigitOf(v: nat)
    requires v < 16
    ensures DigitValue(UPPER[v]) == Some(v) && DigitValue(LOWER[v]) == Some(v)
    ensures UPPER[v] != '+' && LOWER[v] != '+' && UPPER[v] != '-' && LOWER[v] != '-'
  {
  }

  /** The digits are those of either case, at their places. */
  lemma DigitIff(c: char, v: nat)
    requires v < 16
    ensures DigitValue(c) == Some(v) <==> c == "0123456789ABCDEF"[v] || c == "0123456789abcdef"[v]
    ensures UPPER == "0123456789ABCDEF" && LOWER == "0123456789abcdef"
  {
  }

  predicate AllDigits(s: string) {
    forall i :: 0 <= i < |s| ==> DigitValue(s[i]).Some?
  }

  function Pow16(n: nat): nat {
    if n == 0 then 1 else 16 * Pow16(n - 1)
  }

  lemma {:induction false} DigitsIff(s: string)
    ensures DigitsValue(s).Some? <==> AllDigits(s)
    ensures DigitsValue(s).Some? ==> DigitsValue(s).value < Pow16(|s|)
  {
    hide DigitValue;
    if s != "" {
      DigitsIff(s[..|s| - 1]);
    }
  }

  lemma {:induction false} Pow16Grows(m: nat, n: nat)
    requires m <= n
    ensures Pow16(m) <= Pow16(n)
  {
    if m < n {
      Pow16Grows(m, n - 1);
    }
  }

  /** A number: digits, behind a `+` if there is one. */
  predicate IsNumber(s: string) {
    (s != "" && AllDigits(s)) || (|s| > 1 && s[0] == '+' && AllDigits(s[1..]))
  }

  /** Every number whose digits cannot pass the limit is accepted, and nothing else is. */
  lemma NumberIff(s: string, n: nat, limit: nat)
    requires |s| <= n && limit == Pow16(n)
    ensures FromStrRadix16(s, limit).Some? <==> IsNumber(s)
  {
    hide DigitValue, DigitsValue, Pow16;
    var digits := if |s| > 0 && s[0] == '+' then s[1..] else s;
    DigitsIff(digits);
    Pow16Grows(|digits|, n);
    PlusIsNoDigit();
  }

  lemma PlusIsNoDigit()
    ensures DigitValue('+').None?
  {
  }

  lemma TwoDigits(a: char, b: char)
    ensures DigitsValue([a, b])
         == (if DigitValue(a).Some? && DigitValue(b).Some?
             then Some(16 * DigitValue(a).value + DigitValue(b).value) else None)
  {
    assert [a, b][..1] == [a];
    assert [a][..0] == "";
    assert DigitsValue([a]) == DigitValue(a);
  }

  /** Two characters are accepted as a byte exactly when they are two digits, or a `+` and one. */
  lemma TwoCharByte(a: char, b: char)
    ensures FromStrRadix16([a, b], 256)
         == (if DigitValue(b).None? then None
             else if a == '+' then Some(DigitValue(b).value)
             else if DigitValue(a).Some? then Some(16 * DigitValue(a).value + DigitValue(b).value)
             else None)
  {
    TwoDigits(a, b);
    assert [a, b][1..] == [b];
    assert [b][..0] == "";
    assert DigitsValue([b]) == DigitValue(b);
  }

  lemma Hex2RoundTrip(b: byte)
    ensures FromStrRadix16(Hex2(UPPER, b), 256) == Some(b)
    ensures FromStrRadix16(Hex2(LOWER, b), 256) == Some(b)
  {
    DigitOf(b / 16);
    DigitOf(b % 16);
    TwoCharByte(UPPER[b / 16], UPPER[b % 16]);
    TwoCharByte(LOWER[b / 16], LOWER[b % 16]);
  }
}
