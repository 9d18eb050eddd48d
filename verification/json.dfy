/**
 * JSON text as `JSON.parse` reads it (ECMA-262 section 25.5.1, grammar of ECMA-404), and
 * `JSON.stringify` for objects whose members are null, strings or integers, the shape the
 * image store writes.
 */
module Json {
  import opened Wrappers
  import opened Text
  import Percent

  /** A parsed JSON value. A number keeps its text: the model never computes with it. */
  datatype Value =
    | Null
    | Bool(b: bool)
    | Number(text: string)
    | Str(s: string)
    | Array(items: seq<Value>)
    | Object(members: seq<(string, Value)>)

  predicate IsWs(c: char) {
    c == ' ' || c == '\t' || c == '\n' || c == '\r'
  }

  function SkipWs(s: string): (r: string)
    ensures |r| <= |s|
    ensures r != [] ==> !IsWs(r[0])
  {
    if s != [] && IsWs(s[0]) then SkipWs(s[1..]) else s
  }

  /** How many decimal digits s starts with. */
  function DigitRun(s: string): (n: nat)
    ensures n <= |s|
    ensures forall i | 0 <= i < n :: IsDigit(s[i])
    ensures n < |s| ==> !IsDigit(s[n])
  {
    if s != [] && IsDigit(s[0]) then 1 + DigitRun(s[1..]) else 0
  }

  /** The length of the fraction part `.digits` at the start of s (0: there is none; -1: malformed). */
  function FractionLength(s: string): int {
    if s != [] && s[0] == '.' then (if DigitRun(s[1..]) == 0 then -1 else 1 + DigitRun(s[1..])) else 0
  }

  /** The length of the exponent part `e[+-]digits` at the start of s (0: there is none; -1: malformed). */
  function ExponentLength(s: string): int {
    if s != [] && (s[0] == 'e' || s[0] == 'E') then
      var sign := if |s| > 1 && (s[1] == '+' || s[1] == '-') then 1 else 0;
      var d := DigitRun(s[1 + sign..]);
      if d == 0 then -1 else 1 + sign + d
    else 0
  }

  /** The length of the JSON number at the start of t, if one starts there. */
  function NumberLength(t: string): (r: Option<nat>)
    ensures r.Some? ==> 0 < r.value <= |t|
  {
    var i := if t != [] && t[0] == '-' then 1 else 0;
    var d := DigitRun(t[i..]);
    if d == 0 then None
    else
      var whole := if t[i] == '0' then 1 else d;
      var f := FractionLength(t[i + whole..]);
      if f < 0 then None
      else
        var e := ExponentLength(t[i + whole + f..]);
        if e < 0 then None else Some(i + whole + f + e)
  }

  /** The value of four hexadecimal digits. */
  function Hex4(s: string): int
    requires |s| == 4 && forall i | 0 <= i < 4 :: Percent.IsHexDigit(s[i])
  {
    Percent.HexValue(s[0]) * 0x1000 + Percent.HexValue(s[1]) * 0x100 + Percent.HexValue(s[2]) * 0x10 + Percent.HexValue(s[3])
  }

  predicate HexAt(s: string, i: nat) {
    i + 4 <= |s| && forall j | i <= j < i + 4 :: Percent.IsHexDigit(s[j])
  }

  /** The character a one-letter escape stands for (`\"`, `\\`, `\/`, `\b`, `\f`, `\n`, `\r`, `\t`). */
  function ShortEscape(e: char): Option<char> {
    if e == '"' then Some('"')
    else if e == '\\' then Some('\\')
    else if e == '/' then Some('/')
    else if e == 'b' then Some(8 as char)
    else if e == 'f' then Some(12 as char)
    else if e == 'n' then Some('\n')
    else if e == 'r' then Some('\r')
    else if e == 't' then Some('\t')
    else None
  }

  function Prepend(c: char, r: Option<(string, string)>): Option<(string, string)> {
    match r
    case None => None
    case Some((t, rest)) => Some(([c] + t, rest))
  }

  /**
   * The body of a JSON string after its opening quote: the characters up to the closing quote,
   * and what follows it. None where JSON.parse throws SyntaxError (a raw control character, a bad
   * escape, no closing quote) and where a `\u` escape spells a lone surrogate, which a string of
   * scalar values cannot hold.
   */
  function ParseString(s: string): (r: Option<(string, string)>)
    ensures r.Some? ==> |r.value.1| < |s|
    decreases |s|
  {
    if s == [] then None
    else if s[0] == '"' then Some(("", s[1..]))
    else if s[0] == '\\' then
      if |s| < 2 then None
      else if ShortEscape(s[1]).Some? then Prepend(ShortEscape(s[1]).value, ParseString(s[2..]))
      else if s[1] == 'u' && HexAt(s, 2) then
        var u := Hex4(s[2..6]);
        if 0xD800 <= u < 0xDC00 then
          if |s| >= 12 && s[6] == '\\' && s[7] == 'u' && HexAt(s, 8) && 0xDC00 <= Hex4(s[8..12]) < 0xE000 then
            var cp := 0x1_0000 + (u - 0xD800) * 0x400 + (Hex4(s[8..12]) - 0xDC00);
            Prepend(cp as char, ParseString(s[12..]))
          else None
        else if 0xDC00 <= u < 0xE000 then None
        else Prepend(u as char, ParseString(s[6..]))
      else None
    else if s[0] as int < 0x20 then None
    else Prepend(s[0], ParseString(s[1..]))
  }

  /** A JSON value after optional whitespace, and what follows it. */
  function ParseValue(s: string): (r: Option<(Value, string)>)
    ensures r.Some? ==> |r.value.1| < |s|
    decreases |s|, 0
  {
    var t := SkipWs(s);
    if t == [] then None
    else if t[0] == '{' then
      var u := SkipWs(t[1..]);
      if u != [] && u[0] == '}' then Some((Object([]), u[1..]))
      else
        match ParseMembers(u)
        case None => None
        case Some((ms, rest)) => Some((Object(ms), rest))
    else if t[0] == '[' then
      var u := SkipWs(t[1..]);
      if u != [] && u[0] == ']' then Some((Array([]), u[1..]))
      else
        match ParseItems(u)
        case None => None
        case Some((vs, rest)) => Some((Array(vs), rest))
    else if t[0] == '"' then
      match ParseString(t[1..])
      case None => None
      case Some((str, rest)) => Some((Str(str), rest))
    else if StartsWith(t, "true") then Some((Bool(true), t[4..]))
    else if StartsWith(t, "false") then Some((Bool(false), t[5..]))
    else if StartsWith(t, "null") then Some((Null, t[4..]))
    else
      match NumberLength(t)
      case None => None
      case Some(n) => Some((Number(t[..n]), t[n..]))
  }

  /** The elements of a non-empty array, through its closing bracket. */
  function ParseItems(s: string): (r: Option<(seq<Value>, string)>)
    ensures r.Some? ==> |r.value.1| < |s|
    decreases |s|, 1
  {
    match ParseValue(s)
    case None => None
    case Some((v, after)) =>
      var t := SkipWs(after);
      if t == [] then None
      else if t[0] == ',' then
        match ParseItems(t[1..])
        case None => None
        case Some((vs, rest)) => Some(([v] + vs, rest))
      else if t[0] == ']' then Some(([v], t[1..]))
      else None
  }

  /** The members of a non-empty object, through its closing brace. */
  function ParseMembers(s: string): (r: Option<(seq<(string, Value)>, string)>)
    ensures r.Some? ==> |r.value.1| < |s|
    decreases |s|, 1
  {
    var t := SkipWs(s);
    if t == [] || t[0] != '"' then None
    else
      match ParseString(t[1..])
      case None => None
      case Some((key, afterKey)) =>
        var u := SkipWs(afterKey);
        if u == [] || u[0] != ':' then None
        else
          match ParseValue(u[1..])
          case None => None
          case Some((v, afterValue)) =>
            var w := SkipWs(afterValue);
            if w == [] then None
            else if w[0] == ',' then
              match ParseMembers(w[1..])
              case None => None
              case Some((ms, rest)) => Some(([(key, v)] + ms, rest))
            else if w[0] == '}' then Some(([(key, v)], w[1..]))
            else None
  }

  /** `JSON.parse(text)`; None where it throws SyntaxError. */
  function Parse(text: string): Option<Value> {
    match ParseValue(text)
    case None => None
    case Some((v, rest)) => if SkipWs(rest) == [] then Some(v) else None
  }

  /**
   * Property access on an object: the value of the LAST member with that key (a later member
   * overwrites an earlier one); None is `undefined`.
   */
  function Member(ms: seq<(string, Value)>, key: string): (r: Option<Value>)
    ensures r.None? <==> forall i | 0 <= i < |ms| :: ms[i].0 != key
    ensures r.Some? ==> exists i | 0 <= i < |ms| :: ms[i] == (key, r.value)
  {
    if ms == [] then None
    else if ms[|ms| - 1].0 == key then Some(ms[|ms| - 1].1)
    else Member(ms[..|ms| - 1], key)
  }

  /** Number text denoting zero: every digit before the exponent is 0. */
  predicate IsZeroText(t: string) {
    forall i | 0 <= i < |t| :: t[i] == 'e' || t[i] == 'E' || (exists j | 0 <= j < i :: t[j] == 'e' || t[j] == 'E')
                               || t[i] == '0' || t[i] == '-' || t[i] == '.'
  }

  /** JavaScript truthiness of a parsed value (`undefined`, as None, is falsy). */
  predicate Truthy(v: Option<Value>) {
    match v
    case None => false
    case Some(Null) => false
    case Some(Bool(b)) => b
    case Some(Number(t)) => !IsZeroText(t)
    case Some(Str(s)) => s != ""
    case Some(_) => true
  }

  // ---- JSON.stringify ----

  /** Four lower-case hexadecimal digits, as JSON.stringify writes `\u` escapes. */
  function HexLower(d: int): (c: char)
    requires 0 <= d < 16
    ensures Percent.IsHexDigit(c) && Percent.HexValue(c) == d
  {
    if d < 10 then (48 + d) as char else (87 + d) as char
  }

  /** What JSON.stringify writes for one character inside a string literal. */
  function EscapeChar(c: char): string {
    if c == '"' then "\\\""
    else if c == '\\' then "\\\\"
    else if c == 8 as char then "\\b"
    else if c == 12 as char then "\\f"
    else if c == '\n' then "\\n"
    else if c == '\r' then "\\r"
    else if c == '\t' then "\\t"
    else if c as int < 0x20 then ['\\', 'u', '0', '0', HexLower(c as int / 16), HexLower(c as int % 16)]
    else [c]
  }

  function Escaped(s: string): string {
    if s == [] then "" else EscapeChar(s[0]) + Escaped(s[1..])
  }

  /** A JSON string literal for s. */
  function Quote(s: string): string {
    "\"" + Escaped(s) + "\""
  }

  /** The values the image store writes as members: null, a string, or a non-negative integer. */
  predicate Scalar(v: Value) {
    v.Null? || v.Str? || (v.Number? && IsIntegerText(v.text))
  }

  /** The text of a non-negative integer as JSON.stringify writes it: digits, no leading zero. */
  predicate IsIntegerText(t: string) {
    t != [] && (forall i | 0 <= i < |t| :: IsDigit(t[i])) && (t[0] == '0' ==> t == "0")
  }

  /** Every member value is one the store writes. */
  predicate AllScalar(ms: seq<(string, Value)>) {
    forall i | 0 <= i < |ms| :: Scalar(ms[i].1)
  }

  function ScalarText(v: Value): string
    requires Scalar(v)
  {
    match v
    case Str(s) => Quote(s)
    case Number(t) => t
    case _ => "null"
  }

  /** The members of an object, `"key":value` joined by commas. */
  function MembersText(ms: seq<(string, Value)>): string
    requires AllScalar(ms)
  {
    if ms == [] then ""
    else
      var head := Quote(ms[0].0) + ":" + ScalarText(ms[0].1);
      if |ms| == 1 then head else head + "," + MembersText(ms[1..])
  }

  /** `JSON.stringify` of an object whose members are scalars. */
  function StringifyObject(ms: seq<(string, Value)>): string
    requires AllScalar(ms)
  {
    "{" + MembersText(ms) + "}"
  }

  // ---- JSON.parse reads JSON.stringify back ----

  lemma EscapeCharParses(c: char, rest: string)
    ensures ParseString(EscapeChar(c) + rest) == Prepend(c, ParseString(rest))
  {
    if c == '"' || c == '\\' || c == 8 as char || c == 12 as char || c == '\n' || c == '\r' || c == '\t' {
      var e := if c == '"' then '"' else if c == '\\' then '\\' else if c == 8 as char then 'b'
               else if c == 12 as char then 'f' else if c == '\n' then 'n' else if c == '\r' then 'r' else 't';
      assert EscapeChar(c) == ['\\', e];
      ParseShortEscape(e, rest);
    } else if c as int < 0x20 {
      var h := ['0', '0', HexLower(c as int / 16), HexLower(c as int % 16)];
      assert Hex4(h) == c as int;
      assert EscapeChar(c) == ['\\', 'u'] + h;
      ParseUnicodeEscape(h, rest);
      assert (c as int) as char == c;
    } else {
      var t := EscapeChar(c) + rest;
      assert t == [c] + rest;
      assert t[1..] == rest;
    }
  }

  /** A one-letter escape parses as the character it stands for. */
  lemma ParseShortEscape(e: char, rest: string)
    requires ShortEscape(e).Some?
    ensures ParseString(['\\', e] + rest) == Prepend(ShortEscape(e).value, ParseString(rest))
  {
    var t := ['\\', e] + rest;
    assert t[2..] == rest;
  }

  /** A `\u` escape below the surrogates parses as the character it spells. */
  lemma ParseUnicodeEscape(h: string, rest: string)
    requires |h| == 4 && forall i | 0 <= i < 4 :: Percent.IsHexDigit(h[i])
    requires Hex4(h) < 0xD800
    ensures ParseString(['\\', 'u'] + h + rest) == Prepend(Hex4(h) as char, ParseString(rest))
  {
    var t := ['\\', 'u'] + h + rest;
    assert t[2..6] == h;
    assert HexAt(t, 2);
    assert t[6..] == rest;
  }

  /** The string parser reads an escaped string back up to the closing quote. */
  lemma {:induction false} ParseEscaped(s: string, rest: string)
    ensures ParseString(Escaped(s) + "\"" + rest) == Some((s, rest))
    decreases |s|
  {
    if s == [] {
      assert Escaped(s) + "\"" + rest == "\"" + rest;
    } else {
      assert Escaped(s) + "\"" + rest == EscapeChar(s[0]) + (Escaped(s[1..]) + "\"" + rest);
      EscapeCharParses(s[0], Escaped(s[1..]) + "\"" + rest);
      ParseEscaped(s[1..], rest);
      assert [s[0]] + s[1..] == s;
    }
  }

  /** What may follow a member value: a comma or a closing brace. */
  predicate Delimited(rest: string) {
    rest != [] && (rest[0] == ',' || rest[0] == '}')
  }

  lemma IntegerNumberLength(d: string, rest: string)
    requires IsIntegerText(d) && Delimited(rest)
    ensures NumberLength(d + rest) == Some(|d|)
  {
    var t := d + rest;
    assert t[0..] == t;
    assert DigitRun(t) == |d| by {
      DigitRunOfDigits(d, rest);
    }
    assert t[|d|..] == rest;
    if t[0] == '0' {
      assert d == "0";
    }
  }

  lemma {:induction false} DigitRunOfDigits(d: string, rest: string)
    requires forall i | 0 <= i < |d| :: IsDigit(d[i])
    requires rest == [] || !IsDigit(rest[0])
    ensures DigitRun(d + rest) == |d|
    decreases |d|
  {
    if d == [] {
      assert d + rest == rest;
    } else {
      assert (d + rest)[1..] == d[1..] + rest;
      DigitRunOfDigits(d[1..], rest);
    }
  }

  lemma ParseScalar(v: Value, rest: string)
    requires Scalar(v) && Delimited(rest)
    ensures ParseValue(ScalarText(v) + rest) == Some((v, rest))
  {
    match v
    case Str(s) => ParseStrValue(s, rest);
    case Number(text) => ParseIntegerValue(text, rest);
    case Null => ParseNullValue(rest);
  }

  lemma ParseStrValue(s: string, rest: string)
    ensures ParseValue(Quote(s) + rest) == Some((Str(s), rest))
  {
    var t := Quote(s) + rest;
    assert t == "\"" + (Escaped(s) + "\"" + rest);
    assert t[1..] == Escaped(s) + "\"" + rest;
    ParseEscaped(s, rest);
  }

  lemma ParseIntegerValue(text: string, rest: string)
    requires IsIntegerText(text) && Delimited(rest)
    ensures ParseValue(text + rest) == Some((Number(text), rest))
  {
    var t := text + rest;
    IntegerNumberLength(text, rest);
    assert t[..|text|] == text && t[|text|..] == rest;
  }

  lemma ParseNullValue(rest: string)
    requires Delimited(rest)
    ensures ParseValue("null" + rest) == Some((Null, rest))
  {
    var t := "null" + rest;
    assert t[..4] == "null" && t[4..] == rest;
  }

  /** One member of a members list, when its key and value parse: the parser moves on past it. */
  lemma {:induction false} MembersStep(s: string, key: string, x: string, v: Value, after: string)
    requires s != [] && s[0] == '"' && ParseString(s[1..]) == Some((key, x))
    requires x != [] && x[0] == ':' && ParseValue(x[1..]) == Some((v, after))
    requires Delimited(after)
    ensures after[0] == '}' ==> ParseMembers(s) == Some(([(key, v)], after[1..]))
    ensures after[0] == ',' ==>
      ParseMembers(s) == (match ParseMembers(after[1..])
                          case None => None
                          case Some((ms, rest)) => Some(([(key, v)] + ms, rest)))
  {
    assert SkipWs(s) == s;
    assert SkipWs(x) == x;
    assert SkipWs(after) == after;
  }

  /** What follows the first member's value in `MembersText(ms) + "}" + rest`. */
  function AfterFirst(ms: seq<(string, Value)>, rest: string): string
    requires |ms| > 0 && AllScalar(ms)
  {
    if |ms| == 1 then "}" + rest else "," + MembersText(ms[1..]) + "}" + rest
  }

  lemma {:induction false} MembersTextSplit(ms: seq<(string, Value)>, rest: string)
    requires |ms| > 0 && AllScalar(ms)
    ensures MembersText(ms) + "}" + rest
         == "\"" + (Escaped(ms[0].0) + "\"" + (":" + (ScalarText(ms[0].1) + AfterFirst(ms, rest))))
  {
    var k, v := ms[0].0, ScalarText(ms[0].1);
    var head := Quote(k) + ":" + v;
    var after := AfterFirst(ms, rest);
    if |ms| == 1 {
      assert MembersText(ms) == head;
      assert after == "}" + rest;
      RegroupLast(head, rest);
    } else {
      var m := MembersText(ms[1..]);
      assert MembersText(ms) == head + "," + m;
      assert after == "," + m + "}" + rest;
      RegroupMore(head, m, rest);
    }
    QuoteSplit(k, v, after);
  }

  lemma RegroupLast(h: string, rest: string)
    ensures h + "}" + rest == h + ("}" + rest)
  {
  }

  lemma RegroupMore(h: string, m: string, rest: string)
    ensures h + "," + m + "}" + rest == h + ("," + m + "}" + rest)
  {
  }

  /** A member's text followed by what comes after it, regrouped the way the parser reads it. */
  lemma QuoteSplit(k: string, v: string, after: string)
    ensures Quote(k) + ":" + v + after == "\"" + (Escaped(k) + "\"" + (":" + (v + after)))
  {
    Assoc5("\"", Escaped(k), "\"", ":", v, after);
  }

  lemma Assoc5(a: string, b: string, c: string, d: string, e: string, f: string)
    ensures a + b + c + d + e + f == a + (b + c + (d + (e + f)))
  {
  }

  /** The first member of `MembersText(ms) + "}" + rest` parses as ms[0]. */
  lemma {:induction false} ParseFirstMember(ms: seq<(string, Value)>, rest: string)
    requires |ms| > 0 && AllScalar(ms)
    ensures var after := AfterFirst(ms, rest);
      && (after[0] == '}' ==> ParseMembers(MembersText(ms) + "}" + rest) == Some(([ms[0]], after[1..])))
      && (after[0] == ',' ==>
            ParseMembers(MembersText(ms) + "}" + rest) == (match ParseMembers(after[1..])
                                                           case None => None
                                                           case Some((more, r)) => Some(([ms[0]] + more, r))))
  {
    var key, v := ms[0].0, ms[0].1;
    var after := AfterFirst(ms, rest);
    var x := ":" + (ScalarText(v) + after);
    var s := MembersText(ms) + "}" + rest;
    MembersTextSplit(ms, rest);
    assert s[1..] == Escaped(key) + "\"" + x;
    ParseEscaped(key, x);
    assert x[1..] == ScalarText(v) + after;
    ParseScalar(v, after);
    MembersStep(s, key, x, v, after);
  }

  /** A single member, then the closing brace. */
  lemma ParseOnlyMember(ms: seq<(string, Value)>, rest: string)
    requires |ms| == 1 && AllScalar(ms)
    ensures ParseMembers(MembersText(ms) + "}" + rest) == Some((ms, rest))
  {
    ParseFirstMember(ms, rest);
    assert AfterFirst(ms, rest) == "}" + rest;
    assert [ms[0]] == ms;
  }

  /** The first of several members, then the others as the parser reads them. */
  lemma {:induction false} ParseFirstOfMore(ms: seq<(string, Value)>, rest: string)
    requires |ms| > 1 && AllScalar(ms)
    ensures ParseMembers(MembersText(ms) + "}" + rest) == Some((ms, rest))
    decreases |ms|, 0
  {
    ParseFirstMember(ms, rest);
    AfterFirstMore(ms, rest);
    ParseMembersText(ms[1..], rest);
    assert [ms[0]] + ms[1..] == ms;
  }

  /** With several members, the first is followed by a comma and the text of the others. */
  lemma AfterFirstMore(ms: seq<(string, Value)>, rest: string)
    requires |ms| > 1 && AllScalar(ms)
    ensures AllScalar(ms[1..])
    ensures AfterFirst(ms, rest)[0] == ','
    ensures AfterFirst(ms, rest)[1..] == MembersText(ms[1..]) + "}" + rest
  {
    var tail := ms[1..];
    assert AllScalar(tail) by {
      forall i | 0 <= i < |tail| ensures Scalar(tail[i].1) {
        assert tail[i] == ms[i + 1];
      }
    }
    var t := MembersText(tail) + "}" + rest;
    assert AfterFirst(ms, rest) == "," + t;
  }

  /** The members parser reads `MembersText(ms) + "}"` back as ms. */
  lemma {:induction false} ParseMembersText(ms: seq<(string, Value)>, rest: string)
    requires |ms| > 0 && AllScalar(ms)
    ensures ParseMembers(MembersText(ms) + "}" + rest) == Some((ms, rest))
    decreases |ms|, 1
  {
    if |ms| == 1 {
      ParseOnlyMember(ms, rest);
    } else {
      ParseFirstOfMore(ms, rest);
    }
  }

  /** An object whose members parse up to the end of the text. */
  lemma ParseBraced(body: string, ms: seq<(string, Value)>)
    requires body != [] && body[0] == '"' && ParseMembers(body) == Some((ms, ""))
    ensures Parse("{" + body) == Some(Object(ms))
  {
    var text := "{" + body;
    assert text[1..] == body;
    assert SkipWs(text) == text;
    assert SkipWs(body) == body;
  }

  /** `JSON.parse` reads the text `JSON.stringify` writes for such an object back as that object. */
  lemma ParseStringifyObject(ms: seq<(string, Value)>)
    requires AllScalar(ms)
    ensures Parse(StringifyObject(ms)) == Some(Object(ms))
  {
    if ms == [] {
      assert StringifyObject(ms) == "{}";
    } else {
      var m := MembersText(ms);
      ParseMembersText(ms, "");
      MembersTextSplit(ms, "");
      var body := m + "}" + "";
      assert body[0] == '"';
      RegroupBraces(m);
      ParseBraced(body, ms);
    }
  }

  lemma RegroupBraces(m: string)
    ensures "{" + m + "}" == "{" + (m + "}" + "")
  {
    assert m + "}" + "" == m + "}";
  }


}
