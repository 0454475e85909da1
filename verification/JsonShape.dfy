/** Which bytes the writer spends and which error it reports (crates/schema/src/lib.rs). */
module JsonShape {
  import opened Wrappers
  import opened Utf8
  import opened JsonParser
  import opened JsonWriter
  import opened JsonRoundTrip

  // ----- No byte to spare

  /** A character takes two bytes where there is a short escape, six as another control,
      and otherwise what UTF-8 needs. */
  function CharSize(c: Scalar): nat {
    if c == 0x22 || c == 0x5C || c == 0x0A || c == 0x0D || c == 0x09 then 2
    else if c < 0x20 then 6
    else if c < 0x80 then 1
    else if c < 0x800 then 2
    else if c < 0x10000 then 3
    else 4
  }

  function TextSize(text: Text): nat {
    if text == [] then 0 else CharSize(text[0]) + TextSize(text[1..])
  }

  function Digits(n: nat): nat {
    if n < 10 then 1 else 1 + Digits(n / 10)
  }

  /** What a value takes with nothing between its tokens. */
  function Size(v: PyValue): nat
    requires Serializable(v)
    decreases v, 1
  {
    match v
    case PyNone => 4
    case PyBool(b) => if b then 4 else 5
    case PyInt(n) => if n < 0 then 1 + Digits(-n) else Digits(n)
    case PyFloat(f) =>
      (if f.negative then 1 else 0) + Digits(f.whole) + if f.fraction == [] then 0 else 1 + |f.fraction|
    case PyStr(points) => 2 + TextSize(ToStr(points).value)
    case PyDict(entries) => 2 + EntriesSize(entries) + Commas(|entries|)
    case PyList(items) => 2 + ItemsSize(items) + Commas(|items|)
    case PyTuple(items) => 2 + ItemsSize(items) + Commas(|items|)
  }

  function Commas(n: nat): nat {
    if n == 0 then 0 else n - 1
  }

  function ItemsSize(items: seq<PyValue>): nat
    requires forall i :: 0 <= i < |items| ==> Serializable(items[i])
    decreases items, 0
  {
    if items == [] then 0 else Size(items[0]) + ItemsSize(items[1..])
  }

  /** A key, a colon and a value for each entry. */
  function EntriesSize(entries: seq<Entry>): nat
    requires forall i :: 0 <= i < |entries| ==>
               entries[i].key.PyStr? && ToStr(entries[i].key.points).Some? && Serializable(entries[i].value)
    decreases entries, 0
  {
    if entries == [] then 0
    else EntrySize(entries[0]) + EntriesSize(entries[1..])
  }

  function EntrySize(e: Entry): nat
    requires e.key.PyStr? && ToStr(e.key.points).Some? && Serializable(e.value)
    decreases e, 0
  {
    2 + TextSize(ToStr(e.key.points).value) + 1 + Size(e.value)
  }

  lemma {:induction false} EscapedSize(text: Text)
    ensures |Escaped(text)| == TextSize(text)
  {
    if text != [] { EscapedSize(text[1..]); }
  }

  lemma {:induction false} DecimalSize(n: nat)
    ensures |Decimal(n)| == Digits(n)
  {
    if n >= 10 { DecimalSize(n / 10); }
  }

  /** The output holds no byte beyond its tokens: no whitespace, no longer escape than
      needed, no digit too many. */
  lemma {:induction false} Compact(v: PyValue)
    requires Serializable(v)
    ensures Emit(v).error.None? && |Emit(v).bytes| == Size(v)
    decreases v, 1
  {
    match v {
      case PyInt(n) => DecimalSize(if n < 0 then -n else n);
      case PyFloat(f) => DecimalSize(f.whole);
      case PyStr(points) => EscapedSize(ToStr(points).value);
      case PyDict(entries) => CompactEntries(entries, true);
      case PyList(items) => CompactItems(items, true);
      case PyTuple(items) => CompactItems(items, true);
      case _ =>
    }
  }

  lemma {:induction false} CompactItems(items: seq<PyValue>, first: bool)
    requires forall i :: 0 <= i < |items| ==> Serializable(items[i])
    ensures var e := EmitItems(items, first);
            e.error.None? && |e.bytes| == ItemsSize(items) + if first then Commas(|items|) else |items|
    decreases items, 0
  {
    if items != [] {
      Compact(items[0]);
      CompactItems(items[1..], false);
    }
  }

  lemma {:induction false} CompactEntries(entries: seq<Entry>, first: bool)
    requires forall i :: 0 <= i < |entries| ==>
               entries[i].key.PyStr? && ToStr(entries[i].key.points).Some? && Serializable(entries[i].value)
    ensures var e := EmitEntries(entries, first);
            e.error.None? && |e.bytes| == EntriesSize(entries) + if first then Commas(|entries|) else |entries|
    decreases entries, 0
  {
    if entries != [] {
      CompactEntry(entries[0]);
      CompactEntries(entries[1..], false);
    }
  }

  lemma {:induction false} CompactEntry(e: Entry)
    requires e.key.PyStr? && ToStr(e.key.points).Some? && Serializable(e.value)
    ensures EmitEntry(e).error.None? && |EmitEntry(e).bytes| == EntrySize(e)
    decreases e, 0
  {
    EscapedSize(ToStr(e.key.points).value);
    Compact(e.value);
  }

  /** The two digits of a control's escape are lower-case. */
  lemma {:induction false} LowerCaseHex(c: Scalar, i: nat)
    requires i < |EscapeChar(c)| == 6
    ensures !(0x41 <= EscapeChar(c)[i] <= 0x5A)
  {
  }

  // ----- Which error

  /** The first thing in writing order that has no JSON form. */
  function FirstError(v: PyValue): Option<WriteError>
    decreases v, 1
  {
    match v
    case PyInt(n) => if InI64(n) then None else Some(IntegerRange)
    case PyFloat(f) => if f.Finite? then None else Some(NonFiniteFloat)
    case PyStr(points) => if ToStr(points).Some? then None else Some(LoneSurrogate)
    case PyDict(entries) => EntriesError(entries)
    case PyList(items) => ItemsError(items)
    case PyTuple(items) => ItemsError(items)
    case PyOther => Some(Unsupported)
    case _ => None
  }

  function ItemsError(items: seq<PyValue>): Option<WriteError>
    decreases items, 0
  {
    if items == [] then None
    else
      var e := FirstError(items[0]);
      if e.Some? then e else ItemsError(items[1..])
  }

  /** A key that is not a string comes before the value it would have had. */
  function EntriesError(entries: seq<Entry>): Option<WriteError>
    decreases entries, 0
  {
    if entries == [] then None
    else
      var e := EntryError(entries[0]);
      if e.Some? then e else EntriesError(entries[1..])
  }

  function EntryError(e: Entry): Option<WriteError>
    decreases e, 0
  {
    if !e.key.PyStr? then Some(KeyNotStr)
    else if ToStr(e.key.points).None? then Some(LoneSurrogate)
    else FirstError(e.value)
  }

  /** The writer reports the first error there is, and none if there is none. */
  lemma {:induction false} ReportsFirstError(v: PyValue)
    ensures Emit(v).error == FirstError(v)
    decreases v, 1
  {
    match v {
      case PyDict(entries) => ReportsFirstEntryError(entries, true);
      case PyList(items) => ReportsFirstItemError(items, true);
      case PyTuple(items) => ReportsFirstItemError(items, true);
      case _ =>
    }
  }

  lemma {:induction false} ReportsFirstItemError(items: seq<PyValue>, first: bool)
    ensures EmitItems(items, first).error == ItemsError(items)
    decreases items, 0
  {
    if items != [] {
      ReportsFirstError(items[0]);
      ReportsFirstItemError(items[1..], false);
    }
  }

  lemma {:induction false} ReportsFirstEntryError(entries: seq<Entry>, first: bool)
    ensures EmitEntries(entries, first).error == EntriesError(entries)
    decreases entries, 0
  {
    if entries != [] {
      ReportsEntryError(entries[0]);
      ReportsFirstEntryError(entries[1..], false);
    }
  }

  lemma {:induction false} ReportsEntryError(e: Entry)
    ensures EmitEntry(e).error == EntryError(e)
    decreases e, 0
  {
    if e.key.PyStr? { ReportsFirstError(e.value); }
  }
}
