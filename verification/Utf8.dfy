/** UTF-8 as in RFC 3629: one scalar value at a time, strict decoding. */
module Utf8 {
  import opened Wrappers

  type Byte = b: int | 0 <= b < 256

  /** A Python code point: a `str` may hold lone surrogates. */
  type CodePoint = c: int | 0 <= c < 0x110000

  predicate IsScalar(c: int) {
    0 <= c < 0xD800 || 0xE000 <= c < 0x110000
  }

  type Scalar = c: int | 0 <= c < 0xD800 || 0xE000 <= c < 0x110000
  type Text = seq<Scalar>

  /** A decoded scalar and the number of bytes it took. */
  datatype Unit = Unit(scalar: Scalar, length: nat)

  /** A continuation byte holding the low six bits. */
  function Tail(x: nat): Byte {
    0x80 + x % 64
  }

  function Encode(c: Scalar): (bytes: seq<Byte>)
    ensures 1 <= |bytes| <= 4
  {
    var x: int := c;
    if x < 0x80 then [x]
    else if x < 0x800 then TwoBytes(x)
    else if x < 0x10000 then ThreeBytes(x)
    else FourBytes(x)
  }

  function TwoBytes(x: int): (bytes: seq<Byte>)
    requires 0x80 <= x < 0x800
    ensures |bytes| == 2
  {
    [0xC0 + x / 64, Tail(x)]
  }

  function ThreeBytes(x: int): (bytes: seq<Byte>)
    requires 0x800 <= x < 0x10000
    ensures |bytes| == 3
  {
    [0xE0 + x / 64 / 64, Tail(x / 64), Tail(x)]
  }

  function FourBytes(x: int): (bytes: seq<Byte>)
    requires 0x10000 <= x < 0x110000
    ensures |bytes| == 4
  {
    [0xF0 + x / 64 / 64 / 64, Tail(x / 64 / 64), Tail(x / 64), Tail(x)]
  }

  predicate IsTail(b: Byte) {
    0x80 <= b <= 0xBF
  }

  /** Six more bits, from a continuation byte. */
  function Extend(high: int, tail: int): int {
    high * 64 + (tail - 0x80)
  }

  /** The decoder of section 4 of RFC 3629: overlong forms, surrogates and
      values past U+10FFFF are rejected. */
  function DecodeOne(s: seq<Byte>): (u: Option<Unit>)
    ensures u.Some? ==> 1 <= u.value.length <= |s|
  {
    if s == [] then None
    else if s[0] < 0x80 then Some(Unit(s[0], 1))
    else if s[0] < 0xE0 then DecodeTwo(s)
    else if s[0] < 0xF0 then DecodeThree(s)
    else DecodeFour(s)
  }

  function DecodeTwo(s: seq<Byte>): (u: Option<Unit>)
    ensures u.Some? ==> u.value.length == 2 <= |s|
  {
    if |s| >= 2 && 0xC2 <= s[0] <= 0xDF && IsTail(s[1])
    then Some(Unit(Extend(s[0] - 0xC0, s[1]), 2))
    else None
  }

  function DecodeThree(s: seq<Byte>): (u: Option<Unit>)
    ensures u.Some? ==> u.value.length == 3 <= |s|
  {
    if && |s| >= 3 && 0xE0 <= s[0] <= 0xEF && IsTail(s[1]) && IsTail(s[2])
       && (s[0] == 0xE0 ==> 0xA0 <= s[1])
       && (s[0] == 0xED ==> s[1] <= 0x9F)
    then Some(Unit(Extend(Extend(s[0] - 0xE0, s[1]), s[2]), 3))
    else None
  }

  function DecodeFour(s: seq<Byte>): (u: Option<Unit>)
    ensures u.Some? ==> u.value.length == 4 <= |s|
  {
    if && |s| >= 4 && 0xF0 <= s[0] <= 0xF4 && IsTail(s[1]) && IsTail(s[2]) && IsTail(s[3])
       && (s[0] == 0xF0 ==> 0x90 <= s[1])
       && (s[0] == 0xF4 ==> s[1] <= 0x8F)
    then Some(Unit(Extend(Extend(Extend(s[0] - 0xF0, s[1]), s[2]), s[3]), 4))
    else None
  }

  /** Decoding inverts encoding, whatever follows. */
  lemma {:induction false} DecodeEncode(c: Scalar, rest: seq<Byte>)
    ensures DecodeOne(Encode(c) + rest) == Some(Unit(c, |Encode(c)|))
  {
  }

  /** Only encodings decode: the decoder accepts no second spelling of a scalar. */
  lemma {:induction false} EncodeDecode(s: seq<Byte>)
    ensures DecodeOne(s).Some? ==>
              s[..DecodeOne(s).value.length] == Encode(DecodeOne(s).value.scalar)
  {
    hide DecodeTwo, DecodeThree, DecodeFour, TwoBytes, ThreeBytes, FourBytes;
    if s != [] && s[0] >= 0x80 {
      if s[0] < 0xE0 {
        DecodedTwo(s);
      } else if s[0] < 0xF0 {
        DecodedThree(s);
      } else {
        DecodedFour(s);
      }
    }
  }

  lemma {:induction false} DecodedTwo(s: seq<Byte>)
    ensures DecodeTwo(s).Some? ==>
              var x := DecodeTwo(s).value.scalar; 0x80 <= x < 0x800 && s[..2] == TwoBytes(x)
  {
  }

  lemma {:induction false} DecodedThree(s: seq<Byte>)
    ensures DecodeThree(s).Some? ==>
              var x := DecodeThree(s).value.scalar; 0x800 <= x < 0x10000 && s[..3] == ThreeBytes(x)
  {
  }

  lemma {:induction false} DecodedFour(s: seq<Byte>)
    ensures DecodeFour(s).Some? ==>
              var x := DecodeFour(s).value.scalar; 0x10000 <= x && s[..4] == FourBytes(x)
  {
  }

  function EncodeAll(text: Text): seq<Byte> {
    if text == [] then [] else Encode(text[0]) + EncodeAll(text[1..])
  }

  function DecodeAll(s: seq<Byte>): Option<Text>
    decreases |s|
  {
    if s == [] then Some([])
    else
      var u := DecodeOne(s);
      if u.None? then None
      else
        var tail := DecodeAll(s[u.value.length..]);
        if tail.None? then None else Some([u.value.scalar] + tail.value)
  }

  lemma {:induction false} DecodeEncodeAll(text: Text)
    ensures DecodeAll(EncodeAll(text)) == Some(text)
  {
    hide Encode, DecodeOne;
    if text != [] {
      var tail := EncodeAll(text[1..]);
      DecodeEncode(text[0], tail);
      DecodeEncodeAll(text[1..]);
      assert EncodeAll(text) == Encode(text[0]) + tail;
      assert (Encode(text[0]) + tail)[|Encode(text[0])|..] == tail;
      assert [text[0]] + text[1..] == text;
    }
  }
}
