/** What the JSON writer promises: reading back what it wrote gives the value
    again, in any context, and it fails exactly on what it cannot represent. */
module JsonRoundTrip {
  import opened Wrappers
  import opened Utf8
  import opened JsonParser
  import opened JsonWriter

  // ----- When writing succeeds

  /** Every leaf and key reachable in `v` is one the writer supports. */
  predicate Serializable(v: PyValue)
    decreases v
  {
    match v
    case PyNone => true
    case PyBool(_) => true
    case PyInt(n) => InI64(n)
    case PyFloat(f) => f.Finite?
    case PyStr(points) => ToStr(points).Some?
    case PyDict(entries) =>
      forall i :: 0 <= i < |entries| ==>
        && entries[i].key.PyStr? && ToStr(entries[i].key.points).Some?
        && Serializable(entries[i].value)
    case PyList(items) => forall i :: 0 <= i < |items| ==> Serializable(items[i])
    case PyTuple(items) => forall i :: 0 <= i < |items| ==> Serializable(items[i])
    case PyOther => false
  }

  /** The writer succeeds exactly on serializable trees. */
  lemma {:induction false} WritesExactlySerializable(v: PyValue)
    ensures Emit(v).error.None? <==> Serializable(v)
    decreases v, 1
  {
    match v {
      case PyDict(entries) => EntriesSucceed(entries, true);
      case PyList(items) => ItemsSucceed(items, true);
      case PyTuple(items) => ItemsSucceed(items, true);
      case _ =>
    }
  }

  lemma {:induction false} ItemsSucceed(items: seq<PyValue>, first: bool)
    ensures EmitItems(items, first).error.None? <==> forall i :: 0 <= i < |items| ==> Serializable(items[i])
    decreases items, 0
  {
    if items != [] {
      WritesExactlySerializable(items[0]);
      ItemsSucceed(items[1..], false);
      assert forall i :: 1 <= i < |items| ==> items[i] == items[1..][i - 1];
    }
  }

  predicate EntrySerializable(e: Entry) {
    e.key.PyStr? && ToStr(e.key.points).Some? && Serializable(e.value)
  }

  lemma {:induction false} EntrySucceeds(e: Entry)
    ensures EmitEntry(e).error.None? <==> EntrySerializable(e)
    decreases e, 0
  {
    WritesExactlySerializable(e.value);
  }

  lemma {:induction false} EntriesSucceed(entries: seq<Entry>, first: bool)
    ensures EmitEntries(entries, first).error.None? <==>
            forall i :: 0 <= i < |entries| ==> EntrySerializable(entries[i])
    decreases entries, 0
  {
    if entries != [] {
      EntrySucceeds(entries[0]);
      EntriesSucceed(entries[1..], false);
      assert forall i :: 1 <= i < |entries| ==> entries[i] == entries[1..][i - 1];
    }
  }

  // ----- Strings

  lemma {:induction false} CharRoundTrip(c: Scalar, rest: seq<Byte>)
    ensures var s := EscapeChar(c) + rest;
            && s[0] != QUOTE && CharUnit(s) == Some(Unit(c, |EscapeChar(c)|))
  {
    var s := EscapeChar(c) + rest;
    if c == 0x22 || c == 0x5C || c == 0x0A || c == 0x0D || c == 0x09 {
      assert s[0] == BACKSLASH && s[1] == EscapeChar(c)[1];
    } else if c < 0x20 {
      var x: int := c;
      assert s[0] == BACKSLASH && s[1] == 0x75 && s[2] == 0x30 && s[3] == 0x30;
      assert s[4] == LowerHex(x / 16) && s[5] == LowerHex(x % 16);
      assert HexDigit(s[4]) == Some(x / 16) && HexDigit(s[5]) == Some(x % 16);
    } else {
      DecodeEncode(c, rest);
      assert s[0] == Encode(c)[0];
      EncodedHead(c);
    }
  }

  lemma {:induction false} EncodedHead(c: Scalar)
    ensures c < 0x80 ==> Encode(c) == [c]
    ensures c >= 0x80 ==> forall i :: 0 <= i < |Encode(c)| ==> Encode(c)[i] >= 0x80
  {
  }

  lemma {:induction false} CharsRoundTrip(text: Text, rest: seq<Byte>)
    ensures ParseChars(Escaped(text) + [QUOTE] + rest) == Parsed(text, rest)
  {
    hide EscapeChar, CharUnit;
    var s := Escaped(text) + [QUOTE] + rest;
    if text == [] {
      assert s == [QUOTE] + rest;
    } else {
      var tail := Escaped(text[1..]) + [QUOTE] + rest;
      assert s == EscapeChar(text[0]) + tail;
      CharRoundTrip(text[0], tail);
      assert s[|EscapeChar(text[0])|..] == tail;
      CharsRoundTrip(text[1..], rest);
      assert [text[0]] + text[1..] == text;
    }
  }

  /** A written string reads back as itself and leaves the suffix untouched. */
  lemma {:induction false} StringRoundTrip(text: Text, rest: seq<Byte>)
    ensures ParseString(JsonString(text) + rest) == Parsed(text, rest)
  {
    var s := JsonString(text) + rest;
    assert s[1..] == Escaped(text) + [QUOTE] + rest;
    CharsRoundTrip(text, rest);
  }

  /** Where a reader that only knows "a backslash hides the next byte" sees the
      string end: the offset of the first unescaped quote. */
  function ClosingQuote(s: seq<Byte>): Option<nat>
    decreases |s|
  {
    if s == [] then None
    else if s[0] == QUOTE then Some(0)
    else
      var skip := if s[0] == BACKSLASH && |s| > 1 then 2 else 1;
      var n := ClosingQuote(s[skip..]);
      if n.None? then None else Some(skip + n.value)
  }

  lemma {:induction false} SkipPlain(plain: seq<Byte>, rest: seq<Byte>)
    requires Plain(plain)
    requires ClosingQuote(rest).Some?
    ensures ClosingQuote(plain + rest) == Some(|plain| + ClosingQuote(rest).value)
  {
    if plain == [] {
      assert plain + rest == rest;
    } else {
      SkipPlain(plain[1..], rest);
      assert (plain + rest)[1..] == plain[1..] + rest;
    }
  }

  /** Neither quote nor backslash. */
  predicate Plain(bytes: seq<Byte>) {
    forall i :: 0 <= i < |bytes| ==> bytes[i] != QUOTE && bytes[i] != BACKSLASH
  }

  /** A character is written plain, or as a backslash, a byte and plain bytes. */
  lemma {:induction false} EscapeShape(c: Scalar)
    ensures var bytes := EscapeChar(c);
            && (forall i :: 0 <= i < |bytes| ==> bytes[i] >= 0x20)
            && (Plain(bytes) || (|bytes| >= 2 && bytes == [BACKSLASH, bytes[1]] + bytes[2..] && Plain(bytes[2..])))
  {
    EncodedHead(c);
  }

  lemma {:induction false} SkipEscape(e: Byte, plain: seq<Byte>, rest: seq<Byte>)
    requires Plain(plain) && ClosingQuote(rest).Some?
    ensures ClosingQuote([BACKSLASH, e] + plain + rest) == Some(2 + |plain| + ClosingQuote(rest).value)
  {
    SkipPlain(plain, rest);
    hide Plain, ClosingQuote;
    SkipBackslash([BACKSLASH, e] + plain + rest, plain + rest);
  }

  lemma {:induction false} SkipBackslash(s: seq<Byte>, rest: seq<Byte>)
    requires |s| > 1 && s[0] == BACKSLASH && s[2..] == rest && ClosingQuote(rest).Some?
    ensures ClosingQuote(s) == Some(2 + ClosingQuote(rest).value)
  {
  }

  lemma {:induction false} SkipChar(c: Scalar, rest: seq<Byte>)
    requires ClosingQuote(rest).Some?
    ensures ClosingQuote(EscapeChar(c) + rest) == Some(|EscapeChar(c)| + ClosingQuote(rest).value)
  {
    EscapeShape(c);
    hide EscapeChar, ClosingQuote, Plain;
    var bytes := EscapeChar(c);
    if Plain(bytes) {
      SkipPlain(bytes, rest);
    } else {
      SkipEscape(bytes[1], bytes[2..], rest);
    }
  }

  /** Framing: the body holds no raw control byte, and the first unescaped quote
      after the opening one is the closing one. */
  lemma {:induction false} StringFraming(text: Text, rest: seq<Byte>)
    ensures ClosingQuote(Escaped(text) + [QUOTE] + rest) == Some(|Escaped(text)|)
    ensures forall i :: 0 <= i < |Escaped(text)| ==> Escaped(text)[i] >= 0x20
  {
    hide EscapeChar, Encode;
    if text == [] {
      assert Escaped(text) + [QUOTE] + rest == [QUOTE] + rest;
    } else {
      var tail := Escaped(text[1..]) + [QUOTE] + rest;
      StringFraming(text[1..], rest);
      SkipChar(text[0], tail);
      EscapeShape(text[0]);
      assert Escaped(text) + [QUOTE] + rest == EscapeChar(text[0]) + tail;
    }
  }

  // ----- Numbers

  /** The suffix cannot be taken for more of a number. */
  predicate EndsNumber(rest: seq<Byte>) {
    rest == [] || !(IsDigit(rest[0]) || rest[0] == POINT || rest[0] == 0x65 || rest[0] == 0x45)
  }

  lemma {:induction false} DecimalDigits(n: nat)
    ensures forall i :: 0 <= i < |Decimal(n)| ==> IsDigit(Decimal(n)[i])
    ensures FromDigits(Decimal(n)) == n
    ensures |Decimal(n)| > 1 ==> Decimal(n)[0] != 0x30
  {
    if n >= 10 {
      var ds := Decimal(n / 10);
      DecimalDigits(n / 10);
      assert Decimal(n)[..|ds|] == ds;
      if |ds| == 1 { assert ds == [0x30 + n / 10]; }
    }
  }

  lemma {:induction false} DigitRunIs(ds: seq<Byte>, rest: seq<Byte>)
    requires forall i :: 0 <= i < |ds| ==> IsDigit(ds[i])
    requires rest == [] || !IsDigit(rest[0])
    ensures DigitRun(ds + rest) == |ds|
  {
    if ds == [] {
      assert ds + rest == rest;
    } else {
      DigitRunIs(ds[1..], rest);
      assert (ds + rest)[1..] == ds[1..] + rest;
    }
  }

  function FractionText(fraction: seq<Byte>): seq<Byte> {
    if fraction == [] then [] else [POINT] + fraction
  }

  lemma {:induction false} FractionRoundTrip(fraction: seq<Byte>, rest: seq<Byte>)
    requires forall i :: 0 <= i < |fraction| ==> IsDigit(fraction[i])
    requires EndsNumber(rest)
    ensures ParseFraction(FractionText(fraction) + rest) == Parsed(fraction, rest)
  {
    var s := FractionText(fraction) + rest;
    if fraction == [] {
      assert s == rest;
    } else {
      assert s[1..] == fraction + rest;
      DigitRunIs(fraction, rest);
    }
  }

  lemma {:induction false} MagnitudeRoundTrip(negative: bool, whole: nat, fraction: seq<Byte>, rest: seq<Byte>)
    requires forall i :: 0 <= i < |fraction| ==> IsDigit(fraction[i])
    requires EndsNumber(rest)
    ensures ParseMagnitude(negative, Decimal(whole) + FractionText(fraction) + rest)
         == Parsed(Number(negative, whole, fraction, 0), rest)
  {
    hide Decimal, FromDigits, DigitRun;
    var ds := Decimal(whole);
    var after := FractionText(fraction) + rest;
    var s := Decimal(whole) + FractionText(fraction) + rest;
    assert s == ds + after;
    DecimalDigits(whole);
    assert after == [] || !IsDigit(after[0]);
    DigitRunIs(ds, after);
    assert s[..|ds|] == ds && s[|ds|..] == after;
    FractionRoundTrip(fraction, rest);
  }

  lemma {:induction false} NumberRoundTrip(negative: bool, whole: nat, fraction: seq<Byte>, rest: seq<Byte>)
    requires forall i :: 0 <= i < |fraction| ==> IsDigit(fraction[i])
    requires EndsNumber(rest)
    ensures var text := Signed(negative, Decimal(whole) + FractionText(fraction));
            && (text[0] == MINUS || IsDigit(text[0]))
            && ParseValue(text + rest) == Parsed(Number(negative, whole, fraction, 0), rest)
  {
    hide Decimal, FractionText, ParseMagnitude;
    var digits := Decimal(whole) + FractionText(fraction);
    var s := Signed(negative, digits) + rest;
    MagnitudeRoundTrip(negative, whole, fraction, rest);
    DecimalDigits(whole);
    assert digits[0] == Decimal(whole)[0];
    if negative {
      assert s[1..] == digits + rest;
    } else {
      assert s == digits + rest;
    }
    assert SkipSpace(s) == s;
    assert ParseValue(s) == ParseNumber(s);
  }

  // ----- Values

  /** The JSON value a Python value stands for: tuples are arrays, and a number is
      its decimal digits. */
  function Decoded(v: PyValue): Json
    requires Serializable(v)
    decreases v, 1
  {
    match v
    case PyNone => Null
    case PyBool(b) => Bool(b)
    case PyInt(n) => Number(n < 0, if n < 0 then -n else n, [], 0)
    case PyFloat(f) => Number(f.negative, f.whole, f.fraction, 0)
    case PyStr(points) => String(ToStr(points).value)
    case PyDict(entries) => Object(DecodedEntries(entries))
    case PyList(items) => Array(DecodedItems(items))
    case PyTuple(items) => Array(DecodedItems(items))
  }

  function DecodedItems(items: seq<PyValue>): seq<Json>
    requires forall i :: 0 <= i < |items| ==> Serializable(items[i])
    decreases items, 0
  {
    if items == [] then [] else [Decoded(items[0])] + DecodedItems(items[1..])
  }

  function DecodedEntries(entries: seq<Entry>): seq<Member>
    requires forall i :: 0 <= i < |entries| ==> EntrySerializable(entries[i])
    decreases entries, 0
  {
    if entries == [] then []
    else
      [DecodedEntry(entries[0])] + DecodedEntries(entries[1..])
  }

  function DecodedEntry(e: Entry): Member
    requires EntrySerializable(e)
    decreases e, 0
  {
    Member(ToStr(e.key.points).value, Decoded(e.value))
  }

  /** The first byte a value is written with opens a value: it is neither space
      nor a closer. */
  predicate OpensValue(b: Byte) {
    !IsSpace(b) && b != RBRACKET && b != RBRACE
  }

  predicate Numeric(v: PyValue) {
    v.PyInt? || v.PyFloat?
  }

  /** The round trip in context: whatever follows, the reader gives back the
      value and exactly that suffix. Only a bare number needs a suffix that does
      not go on spelling it. */
  lemma {:induction false} ValueRoundTrip(v: PyValue, rest: seq<Byte>)
    requires Serializable(v)
    requires Numeric(v) ==> EndsNumber(rest)
    ensures Emit(v).bytes != [] && OpensValue(Emit(v).bytes[0])
    ensures ParseValue(Emit(v).bytes + rest) == Parsed(Decoded(v), rest)
    decreases v, 1
  {
    hide ParseValue, EmitEntries, EmitItems, Decimal, JsonString;
    match v {
      case PyDict(entries) => ObjectRoundTrip(entries, rest);
      case PyList(items) => ArrayRoundTrip(items, rest);
      case PyTuple(items) => ArrayRoundTrip(items, rest);
      case PyInt(n) =>
        var whole: nat := if n < 0 then -n else n;
        assert Decimal(whole) + FractionText([]) == Decimal(whole);
        NumberRoundTrip(n < 0, whole, [], rest);
      case PyFloat(f) =>
        NumberRoundTrip(f.negative, f.whole, f.fraction, rest);
      case _ => ConstantRoundTrip(v, rest);
    }
  }

  lemma {:induction false} ConstantRoundTrip(v: PyValue, rest: seq<Byte>)
    requires v.PyNone? || v.PyBool? || v.PyStr?
    requires Serializable(v)
    ensures Emit(v).bytes != [] && OpensValue(Emit(v).bytes[0])
    ensures ParseValue(Emit(v).bytes + rest) == Parsed(Decoded(v), rest)
  {
    var s := Emit(v).bytes + rest;
    match v {
      case PyNone => assert s[..4] == NULL_TEXT && s[4..] == rest;
      case PyBool(b) =>
        if b {
          assert s[..4] == TRUE_TEXT && s[4..] == rest;
        } else {
          assert s[..5] == FALSE_TEXT && s[5..] == rest;
        }
      case PyStr(points) => StringRoundTrip(ToStr(points).value, rest);
    }
  }

  lemma {:induction false} EmptyItems()
    ensures EmitItems([], true) == Done([]) && DecodedItems([]) == []
    ensures EmitEntries([], true) == Done([]) && DecodedEntries([]) == []
  {
  }

  lemma {:induction false} ArrayRoundTrip(items: seq<PyValue>, rest: seq<Byte>)
    requires forall i :: 0 <= i < |items| ==> Serializable(items[i])
    ensures EmitSequence(items).bytes != [] && EmitSequence(items).bytes[0] == LBRACKET
    ensures ParseValue(EmitSequence(items).bytes + rest) == Parsed(Array(DecodedItems(items)), rest)
    decreases items, 2
  {
    hide EmitItems, ParseItems, DecodedItems;
    ItemsSucceed(items, true);
    var body := EmitItems(items, true).bytes + [RBRACKET] + rest;
    var s := EmitSequence(items).bytes + rest;
    assert s == [LBRACKET] + body;
    assert s[1..] == body;
    if items == [] {
      EmptyItems();
      assert body == [RBRACKET] + rest;
    } else {
      ItemsRoundTrip(items, rest);
    }
  }

  lemma {:induction false} ItemsRoundTrip(items: seq<PyValue>, rest: seq<Byte>)
    requires items != [] && forall i :: 0 <= i < |items| ==> Serializable(items[i])
    ensures var s := EmitItems(items, true).bytes + [RBRACKET] + rest;
            && OpensValue(s[0])
            && ParseItems(s) == Parsed(DecodedItems(items), rest)
    decreases items, 1
  {
    hide Emit, Serializable, Decoded, ParseValue, Numeric;
    var head, tail := items[0], items[1..];
    WritesExactlySerializable(head);
    ItemsSucceed(tail, false);
    var s := EmitItems(items, true).bytes + [RBRACKET] + rest;
    var after := EmitItems(tail, false).bytes + [RBRACKET] + rest;
    assert s == Emit(head).bytes + after;
    if tail == [] {
      assert after == [RBRACKET] + rest;
      ValueRoundTrip(head, after);
      assert DecodedItems(items) == [Decoded(head)];
    } else {
      assert EmitItems(tail, false).bytes == [COMMA] + EmitItems(tail, true).bytes;
      assert after[0] == COMMA;
      assert after[1..] == EmitItems(tail, true).bytes + [RBRACKET] + rest;
      ValueRoundTrip(head, after);
      ItemsRoundTrip(tail, rest);
    }
  }

  lemma {:induction false} ObjectRoundTrip(entries: seq<Entry>, rest: seq<Byte>)
    requires forall i :: 0 <= i < |entries| ==> EntrySerializable(entries[i])
    ensures var bytes := Emit(PyDict(entries)).bytes;
            && bytes != [] && bytes[0] == LBRACE
            && ParseValue(bytes + rest) == Parsed(Object(DecodedEntries(entries)), rest)
    decreases entries, 2
  {
    hide EmitEntries, ParseMembers, DecodedEntries, EntrySerializable;
    EntriesSucceed(entries, true);
    var body := EmitEntries(entries, true).bytes + [RBRACE] + rest;
    var s := Emit(PyDict(entries)).bytes + rest;
    assert s == [LBRACE] + body;
    assert s[1..] == body;
    if entries == [] {
      EmptyItems();
      assert body == [RBRACE] + rest;
    } else {
      EntriesRoundTrip(entries, rest);
    }
  }

  lemma {:induction false} EntryRoundTrip(e: Entry, rest: seq<Byte>)
    requires EntrySerializable(e) && EndsNumber(rest)
    ensures EmitEntry(e).bytes != [] && EmitEntry(e).bytes[0] == QUOTE
    ensures ParseMember(EmitEntry(e).bytes + rest) == Parsed(DecodedEntry(e), rest)
    decreases e, 0
  {
    var name := ToStr(e.key.points).value;
    hide Emit, Serializable, Decoded, ParseValue, ParseString, JsonString;
    var value := Emit(e.value).bytes + rest;
    WritesExactlySerializable(e.value);
    var s := EmitEntry(e).bytes + rest;
    assert s == JsonString(name) + ([COLON] + value);
    StringRoundTrip(name, [COLON] + value);
    assert ([COLON] + value)[1..] == value;
    ValueRoundTrip(e.value, rest);
  }

  lemma {:induction false} EntriesRoundTrip(entries: seq<Entry>, rest: seq<Byte>)
    requires entries != [] && forall i :: 0 <= i < |entries| ==> EntrySerializable(entries[i])
    ensures var s := EmitEntries(entries, true).bytes + [RBRACE] + rest;
            && s[0] == QUOTE
            && ParseMembers(s) == Parsed(DecodedEntries(entries), rest)
    decreases entries, 1
  {
    hide EmitEntry, DecodedEntry, ParseMember, EntrySerializable;
    var head, tail := entries[0], entries[1..];
    EntrySucceeds(head);
    EntriesSucceed(tail, false);
    var s := EmitEntries(entries, true).bytes + [RBRACE] + rest;
    var after := EmitEntries(tail, false).bytes + [RBRACE] + rest;
    assert s == EmitEntry(head).bytes + after;
    if tail == [] {
      assert after == [RBRACE] + rest;
      EntryRoundTrip(head, after);
      assert DecodedEntries(entries) == [DecodedEntry(head)];
    } else {
      assert EmitEntries(tail, false).bytes == [COMMA] + EmitEntries(tail, true).bytes;
      assert after[0] == COMMA;
      assert after[1..] == EmitEntries(tail, true).bytes + [RBRACE] + rest;
      EntryRoundTrip(head, after);
      EntriesRoundTrip(tail, rest);
    }
  }
}
