/**
 * UTF-8 as RFC 3629 defines it: the encoder every URL and form codec of the model uses,
 * the WHATWG "UTF-8 decode" with U+FFFD replacement for ill-formed bytes, and the strict
 * per-sequence check that decodeURIComponent performs.
 */
module Utf8 {
  import opened Wrappers

  type Byte = b: int | 0 <= b < 256

  const Replacement: char := 0xFFFD as char

  /** The UTF-8 bytes of one Unicode scalar value (RFC 3629, section 3). */
  function EncodeScalar(c: char): (bs: seq<Byte>)
    ensures 1 <= |bs| <= 4
    ensures c as int < 0x80 <==> |bs| == 1
    ensures c as int < 0x80 ==> bs == [c as int]
    ensures |bs| > 1 ==> forall i | 0 <= i < |bs| :: bs[i] >= 0x80
  {
    var cp := c as int;
    if cp < 0x80 then [cp]
    else if cp < 0x800 then [0xC0 + cp / 0x40, 0x80 + cp % 0x40]
    else if cp < 0x1_0000 then [0xE0 + cp / 0x1000, 0x80 + cp / 0x40 % 0x40, 0x80 + cp % 0x40]
    else [0xF0 + cp / 0x4_0000, 0x80 + cp / 0x1000 % 0x40, 0x80 + cp / 0x40 % 0x40, 0x80 + cp % 0x40]
  }

  /** The UTF-8 encoding of a string. */
  function Encode(s: string): seq<Byte> {
    if s == [] then [] else EncodeScalar(s[0]) + Encode(s[1..])
  }

  lemma {:induction false} EncodeAppend(a: string, b: string)
    ensures Encode(a + b) == Encode(a) + Encode(b)
    decreases |a|
  {
    if a == [] {
      assert a + b == b;
    } else {
      assert (a + b)[0] == a[0] && (a + b)[1..] == a[1..] + b;
      EncodeAppend(a[1..], b);
    }
  }

  /** A string of ASCII characters encodes to one byte per character, its code. */
  lemma {:induction false} EncodeAscii(s: string)
    requires forall i | 0 <= i < |s| :: s[i] as int < 0x80
    ensures |Encode(s)| == |s|
    ensures forall i | 0 <= i < |s| :: Encode(s)[i] == s[i] as int
    decreases |s|
  {
    if s != [] {
      EncodeAscii(s[1..]);
    }
  }

  /** The code point spelled by a complete 1- to 4-byte sequence. */
  function Assemble(bs: seq<Byte>): int
    requires 1 <= |bs| <= 4
  {
    var b: seq<int> := bs;
    if |b| == 1 then b[0]
    else if |b| == 2 then (b[0] - 0xC0) * 0x40 + (b[1] - 0x80)
    else if |b| == 3 then (b[0] - 0xE0) * 0x1000 + (b[1] - 0x80) * 0x40 + (b[2] - 0x80)
    else (b[0] - 0xF0) * 0x4_0000 + (b[1] - 0x80) * 0x1000 + (b[2] - 0x80) * 0x40 + (b[3] - 0x80)
  }

  /**
   * How many bytes after the lead byte bs[0] are acceptable continuation bytes, up to need:
   * the first must lie in [lo, hi], the later ones in [0x80, 0xBF].
   */
  function Accepted(bs: seq<Byte>, need: nat, lo: int, hi: int): (k: nat)
    requires |bs| > 0
    ensures k <= need && k < |bs|
    ensures k >= 1 ==> lo <= bs[1] <= hi
    ensures forall j | 2 <= j <= k :: 0x80 <= bs[j] <= 0xBF
    decreases need
  {
    if need == 0 || |bs| == 1 || bs[1] < lo || hi < bs[1] then 0
    else 1 + Accepted(bs[1..], need - 1, 0x80, 0xBF)
  }

  /** One step of a UTF-8 decoder: the scalar value decoded (None: an error) and the bytes consumed. */
  datatype Step = Step(decoded: Option<char>, length: nat)

  /**
   * One step of the WHATWG UTF-8 decoder: a well-formed sequence yields its scalar value;
   * otherwise the maximal ill-formed prefix (the lead byte and the continuation bytes that
   * were still acceptable) is consumed as one error.
   */
  function DecodeStep(bs: seq<Byte>): (st: Step)
    requires |bs| > 0
    ensures 1 <= st.length <= |bs|
  {
    var b0 := bs[0];
    if b0 < 0x80 then Step(Some(b0 as char), 1)
    else if b0 < 0xC2 || 0xF4 < b0 then Step(None, 1)
    else
      var need := if b0 < 0xE0 then 1 else if b0 < 0xF0 then 2 else 3;
      var lo := if b0 == 0xE0 then 0xA0 else if b0 == 0xF0 then 0x90 else 0x80;
      var hi := if b0 == 0xED then 0x9F else if b0 == 0xF4 then 0x8F else 0xBF;
      var k := Accepted(bs, need, lo, hi);
      if k == need then
        var cp := Assemble(bs[..need + 1]);
        assert 0 <= cp < 0xD800 || 0xE000 <= cp < 0x11_0000;
        Step(Some(cp as char), need + 1)
      else Step(None, 1 + k)
  }

  /** WHATWG "UTF-8 decode without BOM": every error becomes U+FFFD. */
  function DecodeLossy(bs: seq<Byte>): string
    decreases |bs|
  {
    if bs == [] then ""
    else
      var st := DecodeStep(bs);
      [if st.decoded.Some? then st.decoded.value else Replacement] + DecodeLossy(bs[st.length..])
  }

  /** The scalar value whose UTF-8 encoding is exactly bs, if there is one. */
  function DecodeExact(bs: seq<Byte>): (r: Option<char>)
  {
    if bs == [] then None
    else
      var st := DecodeStep(bs);
      if st.length == |bs| then st.decoded else None
  }

  /** The decoder reads the encoder's bytes for one scalar value back, and consumes exactly them. */
  lemma DecodeStepEncode(c: char, rest: seq<Byte>)
    ensures DecodeStep(EncodeScalar(c) + rest) == Step(Some(c), |EncodeScalar(c)|)
  {
    var cp := c as int;
    if cp < 0x80 {
    } else if cp < 0x800 {
      DecodeStepEncode2(c, rest);
    } else if cp < 0x1_0000 {
      DecodeStepEncode3(c, rest);
    } else {
      DecodeStepEncode4(c, rest);
    }
  }

  lemma DecodeStepEncode2(c: char, rest: seq<Byte>)
    requires 0x80 <= c as int < 0x800
    ensures DecodeStep(EncodeScalar(c) + rest) == Step(Some(c), 2)
  {
    var e := EncodeScalar(c);
    var bs := e + rest;
    var cp := c as int;
    assert bs[..|e|] == e;
    assert cp == (cp / 0x40) * 0x40 + cp % 0x40;
    assert Assemble(bs[..2]) == cp;
  }

  lemma DecodeStepEncode3(c: char, rest: seq<Byte>)
    requires 0x800 <= c as int < 0x1_0000
    ensures DecodeStep(EncodeScalar(c) + rest) == Step(Some(c), 3)
  {
    var e := EncodeScalar(c);
    var bs := e + rest;
    var cp := c as int;
    assert bs[..|e|] == e;
    assert cp / 0x40 == (cp / 0x1000) * 0x40 + cp / 0x40 % 0x40;
    assert cp == (cp / 0x40) * 0x40 + cp % 0x40;
    assert Assemble(bs[..3]) == cp;
  }

  lemma DecodeStepEncode4(c: char, rest: seq<Byte>)
    requires 0x1_0000 <= c as int
    ensures DecodeStep(EncodeScalar(c) + rest) == Step(Some(c), 4)
  {
    var e := EncodeScalar(c);
    var bs := e + rest;
    var cp := c as int;
    assert bs[..|e|] == e;
    assert cp / 0x1000 == (cp / 0x4_0000) * 0x40 + cp / 0x1000 % 0x40;
    assert cp / 0x40 == (cp / 0x1000) * 0x40 + cp / 0x40 % 0x40;
    assert cp == (cp / 0x40) * 0x40 + cp % 0x40;
    assert Assemble(bs[..4]) == cp;
  }


  /** Decoding undoes encoding: `DecodeLossy(Encode(s)) == s`, with no replacement character introduced. */
  lemma {:induction false} DecodeLossyEncode(s: string)
    ensures DecodeLossy(Encode(s)) == s
    decreases |s|
  {
    if s != [] {
      var e := EncodeScalar(s[0]);
      DecodeStepEncode(s[0], Encode(s[1..]));
      assert (e + Encode(s[1..]))[|e|..] == Encode(s[1..]);
      DecodeLossyEncode(s[1..]);
    }
  }

  /** The strict check accepts the encoding of every scalar value, reading it back as that value. */
  lemma DecodeExactEncode(c: char)
    ensures DecodeExact(EncodeScalar(c)) == Some(c)
  {
    DecodeStepEncode(c, []);
    assert EncodeScalar(c) + [] == EncodeScalar(c);
  }
}
