/**
 * `encodeURIComponent` and `decodeURIComponent` as ECMA-262 defines them (section 19.2.6),
 * over strings of Unicode scalar values. The share link encodes image URLs with the first;
 * the viewer page decodes them with the second.
 */
module UriComponent {
  import opened Wrappers
  import opened Utf8
  import opened Percent

  /** The characters encodeURIComponent leaves alone. */
  predicate Unreserved(c: char) {
    'A' <= c <= 'Z' || 'a' <= c <= 'z' || '0' <= c <= '9'
    || c == '-' || c == '_' || c == '.' || c == '!' || c == '~' || c == '*' || c == '\'' || c == '(' || c == ')'
  }

  function EncodeChar(c: char): string {
    if Unreserved(c) then [c] else Escape(EncodeScalar(c))
  }

  /** `encodeURIComponent(s)`. Dafny strings hold no lone surrogates, so it never throws here. */
  function Encode(s: string): (r: string)
    ensures forall i | 0 <= i < |r| :: Unreserved(r[i]) || r[i] == '%'
    ensures s != [] ==> r != []
  {
    if s == [] then "" else EncodeChar(s[0]) + Encode(s[1..])
  }

  /**
   * The length of the UTF-8 sequence that a lead byte announces, as decodeURIComponent reads it
   * (the number of leading one bits, or 1 for an ASCII byte); 0 when it throws URIError
   * (a continuation byte, or five or more leading one bits).
   */
  function LeadCount(b: Byte): nat {
    if b < 0x80 then 1
    else if b < 0xC0 then 0
    else if b < 0xE0 then 2
    else if b < 0xF0 then 3
    else if b < 0xF8 then 4
    else 0
  }

  /** n escapes `%XX` at the start of s, as bytes. */
  function ReadEscapes(s: string, n: nat): (r: Option<seq<Byte>>)
    ensures r.Some? ==> |r.value| == n && 3 * n <= |s|
    decreases n
  {
    if n == 0 then Some([])
    else if |s| >= 3 && s[0] == '%' && IsHexDigit(s[1]) && IsHexDigit(s[2]) then
      match ReadEscapes(s[3..], n - 1)
      case None => None
      case Some(more) => Some([HexValue(s[1]) * 16 + HexValue(s[2])] + more)
    else None
  }

  /**
   * `decodeURIComponent(s)`; None where it throws URIError: a `%` not followed by two
   * hexadecimal digits, a bad lead byte, a missing or bad continuation escape, or escapes that
   * are not the UTF-8 encoding of a scalar value.
   */
  function Decode(s: string): (r: Option<string>)
    decreases |s|
  {
    if s == [] then Some("")
    else if s[0] != '%' then
      match Decode(s[1..])
      case None => None
      case Some(t) => Some([s[0]] + t)
    else
      match ReadEscapes(s, 1)
      case None => None
      case Some(lead) =>
        var n := LeadCount(lead[0]);
        if n == 0 then None
        else
          match ReadEscapes(s, n)
          case None => None
          case Some(bs) =>
            match DecodeExact(bs)
            case None => None
            case Some(c) =>
              match Decode(s[3 * n..])
              case None => None
              case Some(t) => Some([c] + t)
  }

  lemma {:induction false} ReadEscapesOfEscape(e: seq<Byte>, rest: string, n: nat)
    requires n <= |e|
    ensures ReadEscapes(Escape(e) + rest, n) == Some(e[..n])
    decreases n
  {
    if n > 0 {
      var s := Escape(e) + rest;
      assert Escape(e) == EscapeByte(e[0]) + Escape(e[1..]);
      assert s[3..] == Escape(e[1..]) + rest;
      ReadEscapesOfEscape(e[1..], rest, n - 1);
      assert [e[0]] + e[1..][..n - 1] == e[..n];
    }
  }

  /** The lead byte of a scalar value's encoding announces the length of that encoding. */
  lemma LeadCountOfEncoding(c: char)
    ensures LeadCount(EncodeScalar(c)[0]) == |EncodeScalar(c)|
  {
  }

  /** Decoding the encoding of one character yields it, then decodes whatever follows. */
  lemma DecodeEncodeChar(c: char, rest: string)
    ensures Decode(EncodeChar(c) + rest) == match Decode(rest) case None => None case Some(t) => Some([c] + t)
  {
    var s := EncodeChar(c) + rest;
    if Unreserved(c) {
      assert s[0] == c && s[1..] == rest;
    } else {
      var e := EncodeScalar(c);
      ReadEscapesOfEscape(e, rest, 1);
      ReadEscapesOfEscape(e, rest, |e|);
      assert e[..|e|] == e;
      LeadCountOfEncoding(c);
      DecodeExactEncode(c);
      assert s[3 * |e|..] == rest;
    }
  }

  /** decodeURIComponent undoes encodeURIComponent for every string. */
  lemma {:induction false} DecodeEncode(s: string)
    ensures Decode(Encode(s)) == Some(s)
    decreases |s|
  {
    if s != [] {
      DecodeEncode(s[1..]);
      DecodeEncodeChar(s[0], Encode(s[1..]));
      assert [s[0]] + s[1..] == s;
    }
  }
}
