/**
 * The application/x-www-form-urlencoded format of the WHATWG URL Standard (section 5), which
 * `URLSearchParams` serializes and parses, and the list operations `get` and `set` on it.
 */
module FormUrlEncoded {
  import opened Wrappers
  import opened Utf8
  import opened Percent

  /** A name-value pair of a URLSearchParams list. */
  type Pair = (string, string)

  /** The characters the serializer writes as themselves (outside the form percent-encode set). */
  predicate Safe(c: char) {
    'A' <= c <= 'Z' || 'a' <= c <= 'z' || '0' <= c <= '9' || c == '*' || c == '-' || c == '.' || c == '_'
  }

  /** What the serializer writes for one character: `+` for a space, the character, or its UTF-8 bytes escaped. */
  function EncodeChar(c: char): string {
    if c == ' ' then "+" else if Safe(c) then [c] else Escape(EncodeScalar(c))
  }

  /** The form serialization of one name or value. Its characters are ASCII and never `&` or `=`. */
  function Encode(s: string): (r: string)
    ensures forall i | 0 <= i < |r| :: r[i] == '+' || r[i] == '%' || Safe(r[i])
  {
    if s == [] then "" else EncodeChar(s[0]) + Encode(s[1..])
  }

  function SerializePair(p: Pair): string {
    Encode(p.0) + "=" + Encode(p.1)
  }

  /** `URLSearchParams.toString()`: the pairs, `name=value`, joined by `&`. */
  function Serialize(ps: seq<Pair>): string
    decreases |ps|
  {
    if ps == [] then ""
    else if |ps| == 1 then SerializePair(ps[0])
    else SerializePair(ps[0]) + "&" + Serialize(ps[1..])
  }

  /** The index of the first b in bs, or |bs| when there is none. */
  function IndexOf(bs: seq<Byte>, b: Byte): (i: nat)
    ensures i <= |bs|
    ensures i < |bs| ==> bs[i] == b
    ensures forall j | 0 <= j < i :: bs[j] != b
  {
    if bs == [] then 0 else if bs[0] == b then 0 else 1 + IndexOf(bs[1..], b)
  }

  function ReplacePlus(bs: seq<Byte>): (r: seq<Byte>)
    ensures |r| == |bs|
  {
    if bs == [] then [] else [if bs[0] == 0x2B then 0x20 else bs[0]] + ReplacePlus(bs[1..])
  }

  /** Decoding of one name or value: `+` to space, percent-decode, then UTF-8 decode with replacement. */
  function DecodeBytes(bs: seq<Byte>): string {
    DecodeLossy(PercentDecode(ReplacePlus(bs)))
  }

  /** One non-empty `&`-separated sequence: split at its first `=`; with none, the value is empty. */
  function ParseField(bs: seq<Byte>): Pair {
    var i := IndexOf(bs, 0x3D);
    (DecodeBytes(bs[..i]), DecodeBytes(if i < |bs| then bs[i + 1..] else []))
  }

  /** The form parser on bytes: split on `&`, skip empty sequences, parse the rest as pairs. */
  function ParseBytes(bs: seq<Byte>): seq<Pair>
    decreases |bs|
  {
    if bs == [] then []
    else
      var i := IndexOf(bs, 0x26);
      var here := if i == 0 then [] else [ParseField(bs[..i])];
      if i == |bs| then here else here + ParseBytes(bs[i + 1..])
  }

  /** `new URLSearchParams(query)` for a query without its leading `?`: the parser on its UTF-8 bytes. */
  function Parse(query: string): seq<Pair> {
    ParseBytes(Utf8.Encode(query))
  }

  /** `params.get(name)`: the value of the first pair with that name. */
  function Get(ps: seq<Pair>, name: string): (r: Option<string>)
    ensures r.None? <==> forall i | 0 <= i < |ps| :: ps[i].0 != name
    ensures r.Some? ==> exists i | 0 <= i < |ps| :: ps[i] == (name, r.value)
  {
    if ps == [] then None else if ps[0].0 == name then Some(ps[0].1) else Get(ps[1..], name)
  }

  /** The pairs whose name is not `name`, in order. */
  function Without(ps: seq<Pair>, name: string): (r: seq<Pair>)
    ensures forall i | 0 <= i < |r| :: r[i].0 != name
  {
    if ps == [] then [] else (if ps[0].0 == name then [] else [ps[0]]) + Without(ps[1..], name)
  }

  /** How many pairs are named `name`. */
  function Count(ps: seq<Pair>, name: string): nat {
    if ps == [] then 0 else (if ps[0].0 == name then 1 else 0) + Count(ps[1..], name)
  }

  /** `params.set(name, value)`: the first pair named `name` gets the value, the others go; with none, append. */
  function Set(ps: seq<Pair>, name: string, value: string): seq<Pair> {
    if ps == [] then [(name, value)]
    else if ps[0].0 == name then [(name, value)] + Without(ps[1..], name)
    else [ps[0]] + Set(ps[1..], name, value)
  }

  // ---- Properties of set ----

  /** `get` finds the first pair with the name. */
  lemma {:induction false} GetAt(ps: seq<Pair>, i: nat, name: string)
    requires i < |ps| && ps[i].0 == name
    requires forall j | 0 <= j < i :: ps[j].0 != name
    ensures Get(ps, name) == Some(ps[i].1)
    decreases i
  {
    if i > 0 {
      GetAt(ps[1..], i - 1, name);
    }
  }

  lemma {:induction false} CountWithout(ps: seq<Pair>, name: string)
    ensures Count(Without(ps, name), name) == 0
    decreases |ps|
  {
    if ps != [] {
      CountWithout(ps[1..], name);
      var h := if ps[0].0 == name then [] else [ps[0]];
      CountAppend(h, Without(ps[1..], name), name);
    }
  }

  lemma {:induction false} CountAppend(a: seq<Pair>, b: seq<Pair>, name: string)
    ensures Count(a + b, name) == Count(a, name) + Count(b, name)
    decreases |a|
  {
    if a == [] {
      assert a + b == b;
    } else {
      assert (a + b)[0] == a[0] && (a + b)[1..] == a[1..] + b;
      CountAppend(a[1..], b, name);
    }
  }

  lemma {:induction false} WithoutAppend(a: seq<Pair>, b: seq<Pair>, name: string)
    ensures Without(a + b, name) == Without(a, name) + Without(b, name)
    decreases |a|
  {
    if a == [] {
      assert a + b == b;
    } else {
      assert (a + b)[0] == a[0] && (a + b)[1..] == a[1..] + b;
      WithoutAppend(a[1..], b, name);
    }
  }

  lemma {:induction false} WithoutTwice(ps: seq<Pair>, name: string)
    ensures Without(Without(ps, name), name) == Without(ps, name)
    decreases |ps|
  {
    if ps != [] {
      WithoutTwice(ps[1..], name);
      var h := if ps[0].0 == name then [] else [ps[0]];
      WithoutAppend(h, Without(ps[1..], name), name);
    }
  }

  /**
   * After `set(name, value)` there is exactly one pair named `name`, `get` returns the new value,
   * and the pairs with other names are those before, in the same order.
   */
  lemma {:induction false} SetSemantics(ps: seq<Pair>, name: string, value: string)
    ensures Count(Set(ps, name, value), name) == 1
    ensures Get(Set(ps, name, value), name) == Some(value)
    ensures Without(Set(ps, name, value), name) == Without(ps, name)
    decreases |ps|
  {
    var r := Set(ps, name, value);
    if ps == [] {
    } else if ps[0].0 == name {
      CountAppend([(name, value)], Without(ps[1..], name), name);
      CountWithout(ps[1..], name);
      WithoutAppend([(name, value)], Without(ps[1..], name), name);
      WithoutTwice(ps[1..], name);
    } else {
      SetSemantics(ps[1..], name, value);
      CountAppend([ps[0]], Set(ps[1..], name, value), name);
      WithoutAppend([ps[0]], Set(ps[1..], name, value), name);
    }
  }

  // ---- Parsing undoes serializing ----

  /** Serialized text is ASCII without `&`; a serialized name holds no `=`. */
  predicate SerialChar(c: char) {
    c == '+' || c == '%' || Safe(c)
  }

  lemma EncodeCharDecodes(c: char, rest: seq<Byte>)
    ensures PercentDecode(ReplacePlus(Utf8.Encode(EncodeChar(c))) + rest) == EncodeScalar(c) + PercentDecode(rest)
  {
    var t := EncodeChar(c);
    EncodeAscii(t);
    if c == ' ' || Safe(c) {
      assert Utf8.Encode(t) == [t[0] as int];
      assert ReplacePlus(Utf8.Encode(t)) == [if c == ' ' then 0x20 else c as int];
      var bs := ReplacePlus(Utf8.Encode(t)) + rest;
      assert bs[0] != 0x25 && bs[1..] == rest;
    } else {
      var e := EncodeScalar(c);
      assert forall i | 0 <= i < |Utf8.Encode(t)| :: Utf8.Encode(t)[i] != 0x2B;
      ReplacePlusUnchanged(Utf8.Encode(t));
      PercentDecodeEscape(e, rest);
    }
  }

  lemma {:induction false} ReplacePlusUnchanged(bs: seq<Byte>)
    requires forall i | 0 <= i < |bs| :: bs[i] != 0x2B
    ensures ReplacePlus(bs) == bs
    decreases |bs|
  {
    if bs != [] {
      ReplacePlusUnchanged(bs[1..]);
    }
  }

  lemma {:induction false} ReplacePlusAppend(a: seq<Byte>, b: seq<Byte>)
    ensures ReplacePlus(a + b) == ReplacePlus(a) + ReplacePlus(b)
    decreases |a|
  {
    if a == [] {
      assert a + b == b;
    } else {
      assert (a + b)[0] == a[0] && (a + b)[1..] == a[1..] + b;
      ReplacePlusAppend(a[1..], b);
    }
  }

  /** Percent-decoding the serialized bytes of a name or value gives back its UTF-8 bytes. */
  lemma {:induction false} PercentDecodeEncoded(s: string)
    ensures PercentDecode(ReplacePlus(Utf8.Encode(Encode(s)))) == Utf8.Encode(s)
    decreases |s|
  {
    if s != [] {
      var head := EncodeChar(s[0]);
      var tail := Encode(s[1..]);
      EncodeAppend(head, tail);
      ReplacePlusAppend(Utf8.Encode(head), Utf8.Encode(tail));
      EncodeCharDecodes(s[0], ReplacePlus(Utf8.Encode(tail)));
      PercentDecodeEncoded(s[1..]);
    }
  }

  /** Decoding a serialized name or value gives it back. */
  lemma DecodeEncoded(s: string)
    ensures DecodeBytes(Utf8.Encode(Encode(s))) == s
  {
    PercentDecodeEncoded(s);
    DecodeLossyEncode(s);
  }

  lemma AsciiSerial(t: string)
    requires forall i | 0 <= i < |t| :: SerialChar(t[i])
    ensures |Utf8.Encode(t)| == |t|
    ensures forall i | 0 <= i < |t| :: Utf8.Encode(t)[i] == t[i] as int
    ensures forall i | 0 <= i < |t| :: Utf8.Encode(t)[i] != 0x26 && Utf8.Encode(t)[i] != 0x3D
  {
    EncodeAscii(t);
  }

  /** The first b in `a + [b] + c` is the one after a, when a holds none. */
  lemma {:induction false} IndexOfAfter(a: seq<Byte>, b: Byte, c: seq<Byte>)
    requires forall i | 0 <= i < |a| :: a[i] != b
    ensures IndexOf(a + [b] + c, b) == |a|
    decreases |a|
  {
    if a == [] {
      assert (a + [b] + c)[0] == b;
    } else {
      assert (a + [b] + c)[1..] == a[1..] + [b] + c;
      IndexOfAfter(a[1..], b, c);
    }
  }

  lemma {:induction false} IndexOfAbsent(a: seq<Byte>, b: Byte)
    requires forall i | 0 <= i < |a| :: a[i] != b
    ensures IndexOf(a, b) == |a|
    decreases |a|
  {
    if a != [] {
      IndexOfAbsent(a[1..], b);
    }
  }

  /** Parsing a non-empty sequence free of `&`, then `&`, then more: one pair, then the rest parsed. */
  lemma ParseBytesStep(head: seq<Byte>, tail: seq<Byte>)
    requires head != []
    requires forall i | 0 <= i < |head| :: head[i] != 0x26
    ensures ParseBytes(head + [0x26] + tail) == [ParseField(head)] + ParseBytes(tail)
  {
    var bs := head + [0x26] + tail;
    IndexOfAfter(head, 0x26, tail);
    assert bs[..|head|] == head;
    assert bs[|head| + 1..] == tail;
  }

  /** The bytes of `name=value` for serialized text: the name's bytes, `=`, the value's bytes, none of them `&`. */
  lemma SerialPairBytes(n: string, v: string)
    requires forall i | 0 <= i < |n| :: SerialChar(n[i])
    requires forall i | 0 <= i < |v| :: SerialChar(v[i])
    ensures Utf8.Encode(n + "=" + v) == Utf8.Encode(n) + [0x3D] + Utf8.Encode(v)
    ensures forall i | 0 <= i < |Utf8.Encode(n)| :: Utf8.Encode(n)[i] != 0x3D
    ensures forall i | 0 <= i < |Utf8.Encode(n + "=" + v)| :: Utf8.Encode(n + "=" + v)[i] != 0x26
  {
    AsciiSerial(n);
    AsciiSerial(v);
    EncodeAppend(n, "=");
    EncodeAppend(n + "=", v);
    assert Utf8.Encode("=") == [0x3D] by {
      assert "="[1..] == "";
    }
  }

  /** A field split at its first `=`. */
  lemma ParseFieldAt(nb: seq<Byte>, vb: seq<Byte>)
    requires forall i | 0 <= i < |nb| :: nb[i] != 0x3D
    ensures ParseField(nb + [0x3D] + vb) == (DecodeBytes(nb), DecodeBytes(vb))
  {
    var bs := nb + [0x3D] + vb;
    IndexOfAfter(nb, 0x3D, vb);
    assert bs[..|nb|] == nb;
    assert bs[|nb| + 1..] == vb;
  }

  /** The bytes of one serialized pair hold no `&`, are not empty, and parse back to the pair. */
  lemma PairRoundTrip(p: Pair)
    ensures Utf8.Encode(SerializePair(p)) != []
    ensures forall i | 0 <= i < |Utf8.Encode(SerializePair(p))| :: Utf8.Encode(SerializePair(p))[i] != 0x26
    ensures ParseField(Utf8.Encode(SerializePair(p))) == p
  {
    var n, v := Encode(p.0), Encode(p.1);
    SerialPairBytes(n, v);
    ParseFieldAt(Utf8.Encode(n), Utf8.Encode(v));
    DecodeEncoded(p.0);
    DecodeEncoded(p.1);
  }

  /** The bytes of a list of two or more serialized pairs: the first pair, `&`, the rest. */
  lemma SerializedBytes(ps: seq<Pair>)
    requires |ps| > 1
    ensures Utf8.Encode(Serialize(ps))
         == Utf8.Encode(SerializePair(ps[0])) + [0x26] + Utf8.Encode(Serialize(ps[1..]))
  {
    var a, b := SerializePair(ps[0]), Serialize(ps[1..]);
    assert Serialize(ps) == a + "&" + b;
    EncodeAppend(a, "&");
    EncodeAppend(a + "&", b);
    assert Utf8.Encode("&") == [0x26] by {
      assert "&"[1..] == "";
    }
  }

  /** The parser reads the serializer's output back as the same list of pairs. */
  lemma {:induction false} ParseSerialize(ps: seq<Pair>)
    ensures Parse(Serialize(ps)) == ps
    decreases |ps|
  {
    if |ps| == 1 {
      PairRoundTrip(ps[0]);
      var bs := Utf8.Encode(SerializePair(ps[0]));
      IndexOfAbsent(bs, 0x26);
      assert bs[..|bs|] == bs;
    } else if |ps| > 1 {
      PairRoundTrip(ps[0]);
      SerializedBytes(ps);
      ParseBytesStep(Utf8.Encode(SerializePair(ps[0])), Utf8.Encode(Serialize(ps[1..])));
      ParseSerialize(ps[1..]);
      assert [ps[0]] + ps[1..] == ps;
    }
  }
}
