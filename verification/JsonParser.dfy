/** A reader of JSON text: sections 2 to 7 of RFC 8259 over UTF-8 bytes. It is
    the independent meaning against which the writer is proved. */
module JsonParser {
  import opened Wrappers
  import opened Utf8

  const QUOTE: Byte := 0x22
  const BACKSLASH: Byte := 0x5C
  const COMMA: Byte := 0x2C
  const COLON: Byte := 0x3A
  const MINUS: Byte := 0x2D
  const POINT: Byte := 0x2E
  const LBRACKET: Byte := 0x5B
  const RBRACKET: Byte := 0x5D
  const LBRACE: Byte := 0x7B
  const RBRACE: Byte := 0x7D
  const NULL_TEXT: seq<Byte> := [0x6E, 0x75, 0x6C, 0x6C]
  const TRUE_TEXT: seq<Byte> := [0x74, 0x72, 0x75, 0x65]
  const FALSE_TEXT: seq<Byte> := [0x66, 0x61, 0x6C, 0x73, 0x65]

  /** A number keeps its decimal digits: sign, whole part, fraction digits, exponent. */
  datatype Json =
    | Null
    | Bool(truth: bool)
    | Number(negative: bool, whole: nat, fraction: seq<Byte>, exponent: int)
    | String(text: Text)
    | Array(items: seq<Json>)
    | Object(members: seq<Member>)

  datatype Member = Member(name: Text, value: Json)

  datatype Parsed<+T> = Malformed | Parsed(value: T, rest: seq<Byte>)

  // ----- Strings (section 7)

  function HexDigit(b: Byte): (d: Option<nat>)
    ensures d.Some? ==> d.value < 16
  {
    if 0x30 <= b <= 0x39 then Some(b - 0x30)
    else if 0x41 <= b <= 0x46 then Some(b - 0x37)
    else if 0x61 <= b <= 0x66 then Some(b - 0x57)
    else None
  }

  /** The code unit of a `\uXXXX` escape at the head of the input. */
  function UnicodeEscape(s: seq<Byte>): (u: Option<nat>)
    ensures u.Some? ==> u.value < 0x10000 && |s| >= 6
  {
    if |s| < 6 || s[0] != BACKSLASH || s[1] != 0x75 then None
    else
      var a, b, c, d := HexDigit(s[2]), HexDigit(s[3]), HexDigit(s[4]), HexDigit(s[5]);
      if a.None? || b.None? || c.None? || d.None? then None
      else Some(((a.value * 16 + b.value) * 16 + c.value) * 16 + d.value)
  }

  function SimpleEscape(b: Byte): Option<Scalar> {
    if b == QUOTE || b == BACKSLASH || b == 0x2F then Some(b)
    else if b == 0x62 then Some(0x08)
    else if b == 0x66 then Some(0x0C)
    else if b == 0x6E then Some(0x0A)
    else if b == 0x72 then Some(0x0D)
    else if b == 0x74 then Some(0x09)
    else None
  }

  /** One escape, with a surrogate pair read as the one scalar it stands for. */
  function EscapedUnit(s: seq<Byte>): (u: Option<Unit>)
    ensures u.Some? ==> 1 <= u.value.length <= |s|
  {
    if |s| < 2 then None
    else if s[1] != 0x75 then
      var c := SimpleEscape(s[1]);
      if c.None? then None else Some(Unit(c.value, 2))
    else
      var high := UnicodeEscape(s);
      if high.None? then None
      else if IsScalar(high.value) then Some(Unit(high.value, 6))
      else if high.value >= 0xDC00 then None
      else
        var low := UnicodeEscape(s[6..]);
        if low.None? || !(0xDC00 <= low.value < 0xE000) then None
        else Some(Unit(0x10000 + (high.value - 0xD800) * 0x400 + (low.value - 0xDC00), 12))
  }

  /** One character of a string: an escape, or a raw scalar that is not a control. */
  function CharUnit(s: seq<Byte>): (u: Option<Unit>)
    ensures u.Some? ==> 1 <= u.value.length <= |s|
  {
    if s == [] || s[0] < 0x20 then None
    else if s[0] == BACKSLASH then EscapedUnit(s)
    else DecodeOne(s)
  }

  /** The characters up to the closing quote, and what follows it. */
  function ParseChars(s: seq<Byte>): (p: Parsed<Text>)
    ensures p.Parsed? ==> |p.rest| < |s|
    decreases |s|
  {
    if s == [] then Malformed
    else if s[0] == QUOTE then Parsed([], s[1..])
    else
      var u := CharUnit(s);
      if u.None? then Malformed
      else
        var tail := ParseChars(s[u.value.length..]);
        if tail.Malformed? then Malformed
        else Parsed([u.value.scalar] + tail.value, tail.rest)
  }

  function ParseString(s: seq<Byte>): (p: Parsed<Text>)
    ensures p.Parsed? ==> |p.rest| < |s|
  {
    if s == [] || s[0] != QUOTE then Malformed else ParseChars(s[1..])
  }

  // ----- Numbers (section 6)

  predicate IsDigit(b: Byte) {
    0x30 <= b <= 0x39
  }

  /** Length of the longest run of digits at the head of the input. */
  function DigitRun(s: seq<Byte>): (n: nat)
    ensures n <= |s|
    ensures forall i :: 0 <= i < n ==> IsDigit(s[i])
    ensures n < |s| ==> !IsDigit(s[n])
  {
    if s == [] || !IsDigit(s[0]) then 0 else 1 + DigitRun(s[1..])
  }

  function FromDigits(ds: seq<Byte>): nat
    requires forall i :: 0 <= i < |ds| ==> IsDigit(ds[i])
  {
    if ds == [] then 0
    else
      var last: int := ds[|ds| - 1];
      assert IsDigit(ds[|ds| - 1]);
      FromDigits(ds[..|ds| - 1]) * 10 + (last - 0x30)
  }

  /** `[ frac ]`: the digits after a decimal point, none when there is no point. */
  function ParseFraction(s: seq<Byte>): (p: Parsed<seq<Byte>>)
    ensures p.Parsed? ==> |p.rest| <= |s|
  {
    if s == [] || s[0] != POINT then Parsed([], s)
    else
      var n := DigitRun(s[1..]);
      if n == 0 then Malformed else Parsed(s[1..][..n], s[1..][n..])
  }

  /** `[ exp ]`: the exponent, zero when there is none. */
  function ParseExponent(s: seq<Byte>): (p: Parsed<int>)
    ensures p.Parsed? ==> |p.rest| <= |s|
  {
    if s == [] || (s[0] != 0x65 && s[0] != 0x45) then Parsed(0, s)
    else
      var signed := |s| > 1 && (s[1] == MINUS || s[1] == 0x2B);
      var digits := if signed then s[2..] else s[1..];
      var n := DigitRun(digits);
      if n == 0 then Malformed
      else
        var magnitude: int := FromDigits(digits[..n]);
        Parsed(if signed && s[1] == MINUS then -magnitude else magnitude, digits[n..])
  }

  function ParseMagnitude(negative: bool, s: seq<Byte>): (p: Parsed<Json>)
    ensures p.Parsed? ==> |p.rest| < |s|
  {
    var n := DigitRun(s);
    if n == 0 || (n > 1 && s[0] == 0x30) then Malformed
    else
      var fraction := ParseFraction(s[n..]);
      if fraction.Malformed? then Malformed
      else
        var exponent := ParseExponent(fraction.rest);
        if exponent.Malformed? then Malformed
        else Parsed(Number(negative, FromDigits(s[..n]), fraction.value, exponent.value), exponent.rest)
  }

  function ParseNumber(s: seq<Byte>): (p: Parsed<Json>)
    ensures p.Parsed? ==> |p.rest| < |s|
  {
    if s != [] && s[0] == MINUS then ParseMagnitude(true, s[1..]) else ParseMagnitude(false, s)
  }

  // ----- Values (sections 2 to 5)

  predicate IsSpace(b: Byte) {
    b == 0x20 || b == 0x09 || b == 0x0A || b == 0x0D
  }

  function SkipSpace(s: seq<Byte>): (r: seq<Byte>)
    ensures |r| <= |s|
    ensures s != [] && !IsSpace(s[0]) ==> r == s
  {
    if s != [] && IsSpace(s[0]) then SkipSpace(s[1..]) else s
  }

  function ParseLiteral(literal: seq<Byte>, value: Json, s: seq<Byte>): (p: Parsed<Json>)
    requires literal != []
    ensures p.Parsed? ==> |p.rest| < |s|
  {
    if literal <= s then Parsed(value, s[|literal|..]) else Malformed
  }

  function ParseValue(input: seq<Byte>): (p: Parsed<Json>)
    ensures p.Parsed? ==> |p.rest| < |input|
    decreases |input|, 0
  {
    var s := SkipSpace(input);
    if s == [] then Malformed
    else if s[0] == 0x6E then ParseLiteral(NULL_TEXT, Null, s)
    else if s[0] == 0x74 then ParseLiteral(TRUE_TEXT, Bool(true), s)
    else if s[0] == 0x66 then ParseLiteral(FALSE_TEXT, Bool(false), s)
    else if s[0] == QUOTE then
      var p := ParseString(s);
      if p.Malformed? then Malformed else Parsed(String(p.value), p.rest)
    else if s[0] == LBRACKET then
      var body := SkipSpace(s[1..]);
      if body != [] && body[0] == RBRACKET then Parsed(Array([]), body[1..])
      else
        var p := ParseItems(body);
        if p.Malformed? then Malformed else Parsed(Array(p.value), p.rest)
    else if s[0] == LBRACE then
      var body := SkipSpace(s[1..]);
      if body != [] && body[0] == RBRACE then Parsed(Object([]), body[1..])
      else
        var p := ParseMembers(body);
        if p.Malformed? then Malformed else Parsed(Object(p.value), p.rest)
    else ParseNumber(s)
  }

  /** One or more values separated by commas, then the closing bracket. */
  function ParseItems(s: seq<Byte>): (p: Parsed<seq<Json>>)
    ensures p.Parsed? ==> |p.rest| < |s|
    decreases |s|, 1
  {
    var head := ParseValue(s);
    if head.Malformed? then Malformed
    else
      var after := SkipSpace(head.rest);
      if after == [] then Malformed
      else if after[0] == RBRACKET then Parsed([head.value], after[1..])
      else if after[0] != COMMA then Malformed
      else
        var tail := ParseItems(after[1..]);
        if tail.Malformed? then Malformed else Parsed([head.value] + tail.value, tail.rest)
  }

  function ParseMember(input: seq<Byte>): (p: Parsed<Member>)
    ensures p.Parsed? ==> |p.rest| < |input|
    decreases |input|, 1
  {
    var name := ParseString(SkipSpace(input));
    if name.Malformed? then Malformed
    else
      var after := SkipSpace(name.rest);
      if after == [] || after[0] != COLON then Malformed
      else
        var value := ParseValue(after[1..]);
        if value.Malformed? then Malformed else Parsed(Member(name.value, value.value), value.rest)
  }

  /** One or more members separated by commas, then the closing brace. */
  function ParseMembers(s: seq<Byte>): (p: Parsed<seq<Member>>)
    ensures p.Parsed? ==> |p.rest| < |s|
    decreases |s|, 2
  {
    var head := ParseMember(s);
    if head.Malformed? then Malformed
    else
      var after := SkipSpace(head.rest);
      if after == [] then Malformed
      else if after[0] == RBRACE then Parsed([head.value], after[1..])
      else if after[0] != COMMA then Malformed
      else
        var tail := ParseMembers(after[1..]);
        if tail.Malformed? then Malformed else Parsed([head.value] + tail.value, tail.rest)
  }
}
