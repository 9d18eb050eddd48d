/**
 * Percent-escapes of bytes (`%XX`, upper-case hexadecimal), shared by encodeURIComponent and
 * the form serializer, and the WHATWG "percent-decode" of a byte sequence used by the form parser.
 */
module Percent {
  import opened Utf8

  predicate IsHexDigit(c: char) {
    '0' <= c <= '9' || 'A' <= c <= 'F' || 'a' <= c <= 'f'
  }

  /** The value of a hexadecimal digit of either case. */
  function HexValue(c: char): (v: int)
    requires IsHexDigit(c)
    ensures 0 <= v < 16
  {
    if c <= '9' then c as int - '0' as int
    else if c <= 'F' then c as int - 'A' as int + 10
    else c as int - 'a' as int + 10
  }

  /** The upper-case hexadecimal digit for d, which HexValue reads back as d. */
  function HexUpper(d: int): (c: char)
    requires 0 <= d < 16
    ensures IsHexDigit(c) && HexValue(c) == d
    ensures '0' <= c <= '9' || 'A' <= c <= 'F'
  {
    if d < 10 then (48 + d) as char else (55 + d) as char
  }

  /** `%XX` for one byte. */
  function EscapeByte(b: Byte): (s: string)
    ensures |s| == 3 && s[0] == '%' && IsHexDigit(s[1]) && IsHexDigit(s[2])
    ensures HexValue(s[1]) * 16 + HexValue(s[2]) == b
  {
    ['%', HexUpper(b / 16), HexUpper(b % 16)]
  }

  /** `%XX` for each byte, in order. */
  function Escape(bs: seq<Byte>): (s: string)
    ensures |s| == 3 * |bs|
    ensures forall i | 0 <= i < |s| :: s[i] == '%' || '0' <= s[i] <= '9' || 'A' <= s[i] <= 'F'
  {
    if bs == [] then "" else EscapeByte(bs[0]) + Escape(bs[1..])
  }

  /** The byte value of an ASCII hexadecimal digit. */
  predicate IsHexByte(b: Byte) {
    IsHexDigit(b as char)
  }

  /**
   * WHATWG "percent-decode": `%` followed by two hexadecimal digits becomes the byte they
   * spell; every other byte, including a `%` that is not followed by two digits, stays as is.
   */
  function PercentDecode(bs: seq<Byte>): seq<Byte>
    decreases |bs|
  {
    if bs == [] then []
    else if bs[0] == 0x25 && |bs| >= 3 && IsHexByte(bs[1]) && IsHexByte(bs[2]) then
      [HexValue(bs[1] as char) * 16 + HexValue(bs[2] as char)] + PercentDecode(bs[3..])
    else [bs[0]] + PercentDecode(bs[1..])
  }

  /** The bytes of escaped text decode back to the escaped bytes, whatever follows them. */
  lemma {:induction false} PercentDecodeEscape(e: seq<Byte>, rest: seq<Byte>)
    ensures PercentDecode(Encode(Escape(e)) + rest) == e + PercentDecode(rest)
    decreases |e|
  {
    if e == [] {
      assert Encode(Escape(e)) + rest == rest;
    } else {
      var tail := Encode(Escape(e[1..])) + rest;
      EscapeStep(e, rest);
      PercentDecodeEscapeByte(e[0], tail);
      PercentDecodeEscape(e[1..], rest);
      Assoc([e[0]], e[1..], PercentDecode(rest));
      assert [e[0]] + e[1..] == e;
    }
  }

  lemma Assoc(a: seq<Byte>, b: seq<Byte>, c: seq<Byte>)
    ensures a + b + c == a + (b + c)
  {
  }

  /** The bytes of escaped text: the first byte's escape, then the rest's. */
  lemma EscapeStep(e: seq<Byte>, rest: seq<Byte>)
    requires e != []
    ensures Encode(Escape(e)) + rest == Encode(EscapeByte(e[0])) + (Encode(Escape(e[1..])) + rest)
  {
    var x, y := EscapeByte(e[0]), Escape(e[1..]);
    assert Escape(e) == x + y;
    EncodeAppend(x, y);
    Assoc(Encode(x), Encode(y), rest);
  }

  /** The bytes of one `%XX` decode back to the byte. */
  lemma PercentDecodeEscapeByte(b: Byte, tail: seq<Byte>)
    ensures PercentDecode(Encode(EscapeByte(b)) + tail) == [b] + PercentDecode(tail)
  {
    var head := EscapeByte(b);
    EncodeAscii(head);
    var bs := Encode(head) + tail;
    assert bs[0] == 0x25 && bs[1] == head[1] as int && bs[2] == head[2] as int;
    assert bs[3..] == tail;
  }
}
