/** `rayo-schema`: the walk that writes a Python value as JSON bytes
    (crates/schema/src/lib.rs). The buffer, the recursion and the loops follow
    the source; `Emit` is what they leave in the buffer, error paths included. */
module JsonWriter {
  import opened Wrappers
  import opened Utf8
  import opened JsonParser

  type Digit = b: Byte | 0x30 <= b <= 0x39 witness 0x30

  /** How Rust displays a float: an optional sign, a whole part, and a fraction
      only when one is needed. Which digits it picks is not modelled. */
  datatype Float =
    | NotFinite
    | Finite(negative: bool, whole: nat, fraction: seq<Digit>)

  /** The Python objects the writer can meet, as finite trees. */
  datatype PyValue =
    | PyNone
    | PyBool(truth: bool)
    | PyInt(n: int)
    | PyFloat(number: Float)
    | PyStr(points: seq<CodePoint>)
    | PyDict(entries: seq<Entry>)
    | PyList(items: seq<PyValue>)
    | PyTuple(items: seq<PyValue>)
    | PyOther

  datatype Entry = Entry(key: PyValue, value: PyValue)

  datatype WriteError = IntegerRange | NonFiniteFloat | LoneSurrogate | KeyNotStr | Unsupported

  class ByteBuffer {
    var bytes: seq<Byte>

    constructor ()
      ensures bytes == []
    {
      bytes := [];
    }
  }

  // ----- What is written

  predicate InI64(n: int) {
    -0x8000_0000_0000_0000 <= n < 0x8000_0000_0000_0000
  }

  function Decimal(n: nat): (ds: seq<Byte>)
    ensures |ds| > 0
  {
    if n < 10 then [0x30 + n] else Decimal(n / 10) + [0x30 + n % 10]
  }

  function Signed(negative: bool, magnitude: seq<Byte>): seq<Byte> {
    if negative then [MINUS] + magnitude else magnitude
  }

  function FloatText(f: Float): seq<Byte>
    requires f.Finite?
  {
    Signed(f.negative, Decimal(f.whole) + if f.fraction == [] then [] else [POINT] + f.fraction)
  }

  function LowerHex(d: nat): Byte
    requires d < 16
  {
    if d < 10 then 0x30 + d else 0x57 + d
  }

  function EscapeChar(c: Scalar): (bytes: seq<Byte>)
    ensures |bytes| > 0
  {
    if c == 0x22 then [BACKSLASH, QUOTE]
    else if c == 0x5C then [BACKSLASH, BACKSLASH]
    else if c == 0x0A then [BACKSLASH, 0x6E]
    else if c == 0x0D then [BACKSLASH, 0x72]
    else if c == 0x09 then [BACKSLASH, 0x74]
    else if c < 0x20 then
      var x: int := c;
      [BACKSLASH, 0x75, 0x30, 0x30, LowerHex(x / 16), LowerHex(x % 16)]
    else Encode(c)
  }

  function Escaped(text: Text): seq<Byte> {
    if text == [] then [] else EscapeChar(text[0]) + Escaped(text[1..])
  }

  function JsonString(text: Text): seq<Byte> {
    [QUOTE] + Escaped(text) + [QUOTE]
  }

  /** `str.to_str`: refused when a lone surrogate is present. */
  function ToStr(points: seq<CodePoint>): (t: Option<Text>)
    ensures t.Some? <==> forall i :: 0 <= i < |points| ==> IsScalar(points[i])
    ensures t.Some? ==> t.value == points
  {
    if forall i :: 0 <= i < |points| ==> IsScalar(points[i]) then Some(points) else None
  }

  /** Bytes appended, and the error that cut the walk short, if any. */
  datatype Emission = Emission(bytes: seq<Byte>, error: Option<WriteError>)

  function Done(bytes: seq<Byte>): Emission {
    Emission(bytes, None)
  }

  function Fail(error: WriteError): Emission {
    Emission([], Some(error))
  }

  /** `first`, and `second` after it unless `first` failed. */
  function Then(first: Emission, second: Emission): Emission {
    if first.error.Some? then first else Emission(first.bytes + second.bytes, second.error)
  }

  function EmitStr(points: seq<CodePoint>): Emission {
    var text := ToStr(points);
    if text.None? then Fail(LoneSurrogate) else Done(JsonString(text.value))
  }

  function Emit(v: PyValue): Emission
    decreases v, 1
  {
    match v
    case PyNone => Done(NULL_TEXT)
    case PyBool(b) => Done(if b then TRUE_TEXT else FALSE_TEXT)
    case PyInt(n) =>
      if InI64(n) then Done(Signed(n < 0, Decimal(if n < 0 then -n else n))) else Fail(IntegerRange)
    case PyFloat(f) => if f.Finite? then Done(FloatText(f)) else Fail(NonFiniteFloat)
    case PyStr(points) => EmitStr(points)
    case PyDict(entries) => Then(Done([LBRACE]), Then(EmitEntries(entries, true), Done([RBRACE])))
    case PyList(items) => EmitSequence(items)
    case PyTuple(items) => EmitSequence(items)
    case PyOther => Fail(Unsupported)
  }

  function EmitSequence(items: seq<PyValue>): Emission
    decreases items, 1
  {
    Then(Done([LBRACKET]), Then(EmitItems(items, true), Done([RBRACKET])))
  }

  function Separator(first: bool): Emission {
    Done(if first then [] else [COMMA])
  }

  function EmitItems(items: seq<PyValue>, first: bool): Emission
    decreases items, 0
  {
    if items == [] then Done([])
    else Then(Separator(first), Then(Emit(items[0]), EmitItems(items[1..], false)))
  }

  function EmitEntry(e: Entry): Emission
    decreases e, 0
  {
    if !e.key.PyStr? then Fail(KeyNotStr)
    else Then(EmitStr(e.key.points), Then(Done([COLON]), Emit(e.value)))
  }

  function EmitEntries(entries: seq<Entry>, first: bool): Emission
    decreases entries, 0
  {
    if entries == [] then Done([])
    else Then(Separator(first), Then(EmitEntry(entries[0]), EmitEntries(entries[1..], false)))
  }

  // ----- The writers

  lemma {:induction false} EscapeStep(start: seq<Byte>, text: Text, i: nat)
    requires i < |text|
    ensures start + Escaped(text[i..]) == (start + EscapeChar(text[i])) + Escaped(text[i + 1..])
  {
  }

  method WriteJsonString(text: Text, out: ByteBuffer)
    modifies out
    ensures out.bytes == old(out.bytes) + JsonString(text)
  {
    ghost var start := out.bytes;
    out.bytes := out.bytes + [QUOTE];
    assert text[0..] == text;
    for i := 0 to |text|
      invariant out.bytes + Escaped(text[i..]) == start + [QUOTE] + Escaped(text)
    {
      EscapeStep(out.bytes, text, i);
      out.bytes := out.bytes + EscapeChar(text[i]);
    }
    assert out.bytes == start + [QUOTE] + Escaped(text);
    out.bytes := out.bytes + [QUOTE];
    assert out.bytes == start + JsonString(text);
  }

  /** What the buffer and the error hold once `e` has been written after `start`. */
  function Onto(start: seq<Byte>, e: Emission): Emission {
    Emission(start + e.bytes, e.error)
  }

  /** One turn of a writing loop: a separator, an element, the rest, the closer. */
  lemma {:induction false} LoopTurn(start: seq<Byte>, separator: seq<Byte>, head: Emission, rest: Emission, close: Emission)
    ensures var whole := Onto(start, Then(Then(Done(separator), Then(head, rest)), close));
            if head.error.Some? then whole == Onto(start + separator, head)
            else whole == Onto(start + separator + head.bytes, Then(rest, close))
  {
  }

  method WriteJson(v: PyValue, out: ByteBuffer) returns (error: Option<WriteError>)
    modifies out
    ensures Emission(out.bytes, error) == Onto(old(out.bytes), Emit(v))
    decreases v, 1
  {
    ghost var start := out.bytes;
    error := None;
    match v
    case PyNone => out.bytes := out.bytes + NULL_TEXT;
    case PyBool(b) => out.bytes := out.bytes + if b then TRUE_TEXT else FALSE_TEXT;
    case PyInt(n) =>
      if !InI64(n) { return Some(IntegerRange); }
      out.bytes := out.bytes + Signed(n < 0, Decimal(if n < 0 then -n else n));
    case PyFloat(f) =>
      if f.NotFinite? { return Some(NonFiniteFloat); }
      out.bytes := out.bytes + FloatText(f);
    case PyStr(points) =>
      var text := ToStr(points);
      if text.None? { return Some(LoneSurrogate); }
      WriteJsonString(text.value, out);
    case PyDict(entries) =>
      error := WriteJsonEntries(entries, out);
    case PyList(items) =>
      error := WriteJsonSequence(items, out);
    case PyTuple(items) =>
      error := WriteJsonSequence(items, out);
    case PyOther =>
      return Some(Unsupported);
  }

  method WriteJsonSequence(items: seq<PyValue>, out: ByteBuffer) returns (error: Option<WriteError>)
    modifies out
    ensures Emission(out.bytes, error) == Onto(old(out.bytes), EmitSequence(items))
    decreases items, 0
  {
    ghost var goal := Onto(out.bytes, EmitSequence(items));
    assert goal == Onto(out.bytes + [LBRACKET], Then(EmitItems(items, true), Done([RBRACKET])));
    hide Emit, EmitSequence;
    out.bytes := out.bytes + [LBRACKET];
    assert items[0..] == items;
    for i := 0 to |items|
      invariant Onto(out.bytes, Then(EmitItems(items[i..], i == 0), Done([RBRACKET]))) == goal
    {
      ghost var tail, comma := items[i..], Separator(i == 0).bytes;
      assert tail[0] == items[i] && tail[1..] == items[i + 1..];
      LoopTurn(out.bytes, comma, Emit(items[i]), EmitItems(items[i + 1..], false), Done([RBRACKET]));
      ghost var before := out.bytes;
      if i > 0 {
        out.bytes := out.bytes + [COMMA];
      }
      assert out.bytes == before + comma;
      error := WriteJson(items[i], out);
      if error.Some? { return; }
    }
    assert items[|items|..] == [];
    out.bytes := out.bytes + [RBRACKET];
    error := None;
  }

  /** The body of the entry loop past the comma: key check, key, colon, value. */
  method WriteJsonEntry(entry: Entry, out: ByteBuffer) returns (error: Option<WriteError>)
    modifies out
    ensures Emission(out.bytes, error) == Onto(old(out.bytes), EmitEntry(entry))
    decreases entry, 0
  {
    hide JsonString, Emit;
    if !entry.key.PyStr? { return Some(KeyNotStr); }
    var text := ToStr(entry.key.points);
    if text.None? { return Some(LoneSurrogate); }
    ghost var start := out.bytes;
    WriteJsonString(text.value, out);
    out.bytes := out.bytes + [COLON];
    error := WriteJson(entry.value, out);
    assert out.bytes == start + (JsonString(text.value) + ([COLON] + Emit(entry.value).bytes));
  }

  lemma {:induction false} DictGoal(before: seq<Byte>, entries: seq<Entry>)
    ensures Onto(before, Emit(PyDict(entries)))
         == Onto(before + [LBRACE], Then(EmitEntries(entries, true), Done([RBRACE])))
  {
  }

  /** The `dict` branch of `write_json`, with its `first_entry` flag. */
  method WriteJsonEntries(entries: seq<Entry>, out: ByteBuffer) returns (error: Option<WriteError>)
    modifies out
    ensures Emission(out.bytes, error) == Onto(old(out.bytes), Emit(PyDict(entries)))
    decreases entries, 0
  {
    hide Emit, EmitEntry;
    ghost var goal := Onto(out.bytes, Emit(PyDict(entries)));
    DictGoal(out.bytes, entries);
    out.bytes := out.bytes + [LBRACE];
    assert entries[0..] == entries;
    var firstEntry := true;
    for i := 0 to |entries|
      invariant firstEntry == (i == 0)
      invariant Onto(out.bytes, Then(EmitEntries(entries[i..], firstEntry), Done([RBRACE]))) == goal
    {
      ghost var tail, comma := entries[i..], Separator(firstEntry).bytes;
      assert tail[0] == entries[i] && tail[1..] == entries[i + 1..];
      LoopTurn(out.bytes, comma, EmitEntry(entries[i]), EmitEntries(entries[i + 1..], false), Done([RBRACE]));
      ghost var before := out.bytes;
      if !firstEntry {
        out.bytes := out.bytes + [COMMA];
      }
      firstEntry := false;
      assert out.bytes == before + comma;
      error := WriteJsonEntry(entries[i], out);
      if error.Some? { return; }
    }
    assert entries[|entries|..] == [];
    out.bytes := out.bytes + [RBRACE];
    error := None;
  }
}
