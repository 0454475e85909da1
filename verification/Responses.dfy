/** Handler outcomes reduced to wire data: `response_from_return_value`
    (crates/dispatch/src/lib.rs) and the 422 body (crates/core/src/lib.rs). */
module Responses {
  import opened Wrappers
  import opened Utf8
  import opened JsonParser
  import opened JsonWriter
  import opened JsonRoundTrip

  datatype ContentType = PlainText | ApplicationJson

  datatype HandlerResponse = HandlerResponse(status: nat, contentType: ContentType, body: seq<Byte>)

  /** The scalars of a source literal. */
  function Chars(s: string): Text {
    seq(|s|, i requires 0 <= i < |s| => s[i] as int)
  }

  function InternalError(): HandlerResponse {
    HandlerResponse(500, PlainText, EncodeAll(Chars("Internal Server Error")))
  }

  function NoContent(): HandlerResponse {
    HandlerResponse(204, PlainText, [])
  }

  /** The response a returned value becomes. */
  function ReturnResponse(value: PyValue): HandlerResponse {
    if value.PyNone? then NoContent()
    else if value.PyStr? then
      var text := ToStr(value.points);
      if text.Some? then HandlerResponse(200, PlainText, EncodeAll(text.value)) else InternalError()
    else if Emit(value).error.None? then HandlerResponse(200, ApplicationJson, Emit(value).bytes)
    else InternalError()
  }

  method ResponseFromReturnValue(value: PyValue) returns (response: HandlerResponse)
    ensures response == ReturnResponse(value)
  {
    hide Emit, EncodeAll, Chars;
    if value.PyNone? { return NoContent(); }
    if value.PyStr? {
      var text := ToStr(value.points);
      if text.None? { return InternalError(); }
      return HandlerResponse(200, PlainText, EncodeAll(text.value));
    }
    var body := new ByteBuffer();
    var error := WriteJson(value, body);
    if error.Some? { return InternalError(); }
    response := HandlerResponse(200, ApplicationJson, body.bytes);
  }

  /** Every value has one response, with no body cut short: nothing at all for none, the
      text of a string as plain text, any other value that serializes as JSON that reads
      back as the whole value with nothing left over, and the opaque 500 for the rest. */
  lemma {:induction false} NoPartialBody(value: PyValue)
    ensures var r := ReturnResponse(value);
            && (value.PyNone? ==> Serializable(value) && r.status == 204 && r.contentType == PlainText && r.body == [])
            && (value.PyStr? && Serializable(value) ==>
                  && r.status == 200 && r.contentType == PlainText
                  && ToStr(value.points).Some? && DecodeAll(r.body) == ToStr(value.points))
            && (Serializable(value) && !value.PyNone? && !value.PyStr? ==>
                  r.status == 200 && r.contentType == ApplicationJson && ParseValue(r.body) == Parsed(Decoded(value), []))
            && (!Serializable(value) ==> r == InternalError())
  {
    hide Emit, ParseValue, Decoded, EncodeAll, DecodeAll;
    WritesExactlySerializable(value);
    if Serializable(value) {
      ValueRoundTrip(value, []);
      assert Emit(value).bytes + [] == Emit(value).bytes;
      if value.PyStr? { DecodeEncodeAll(ToStr(value.points).value); }
    }
  }

  /** What the opaque 500 says. */
  lemma {:induction false} OpaqueError()
    ensures InternalError().status == 500 && InternalError().contentType == PlainText
    ensures DecodeAll(InternalError().body) == Some(Chars("Internal Server Error"))
  {
    hide EncodeAll, DecodeAll;
    var text := Chars("Internal Server Error");
    DecodeEncodeAll(text);
  }

  // ----- 422 bodies

  datatype ParamKind = StrKind | IntKind | FloatKind | BoolKind

  function ExpectedName(kind: ParamKind): Text {
    match kind
    case StrKind => Chars("str")
    case IntKind => Chars("int")
    case FloatKind => Chars("float")
    case BoolKind => Chars("bool")
  }

  function ValidationMessage(name: Text, expected: ParamKind, raw: Text): Text {
    Chars("path parameter '") + name + Chars("' expected ") + ExpectedName(expected)
    + Chars(", got '") + raw + Chars("'")
  }

  /** The message for each kind of parameter. */
  lemma {:induction false} MessageSays(name: Text, raw: Text)
    ensures ValidationMessage(name, StrKind, raw) == Chars("path parameter '") + name + Chars("' expected " + "str" + ", got '") + raw + Chars("'")
    ensures ValidationMessage(name, IntKind, raw) == Chars("path parameter '") + name + Chars("' expected " + "int" + ", got '") + raw + Chars("'")
    ensures ValidationMessage(name, FloatKind, raw) == Chars("path parameter '") + name + Chars("' expected " + "float" + ", got '") + raw + Chars("'")
    ensures ValidationMessage(name, BoolKind, raw) == Chars("path parameter '") + name + Chars("' expected " + "bool" + ", got '") + raw + Chars("'")
  {
    hide Chars;
    ExpectedSays("str");
    ExpectedSays("int");
    ExpectedSays("float");
    ExpectedSays("bool");
  }

  lemma {:induction false} ExpectedSays(kind: string)
    ensures Chars("' expected ") + Chars(kind) + Chars(", got '") == Chars("' expected " + kind + ", got '")
  {
    CharsAppend("' expected ", kind);
    CharsAppend("' expected " + kind, ", got '");
  }

  lemma {:induction false} CharsAppend(a: string, b: string)
    ensures Chars(a) + Chars(b) == Chars(a + b)
  {
  }

  method ValidationErrorResponse(name: Text, expected: ParamKind, raw: Text) returns (response: HandlerResponse)
    ensures response.status == 422 && response.contentType == ApplicationJson
    ensures ParseValue(response.body)
         == Parsed(Object([Member(Chars("detail"), String(ValidationMessage(name, expected, raw)))]), [])
  {
    hide ParseValue, JsonString, Chars, ValidationMessage;
    var body := new ByteBuffer();
    body.bytes := body.bytes + DETAIL_PREFIX;
    var message := ValidationMessage(name, expected, raw);
    WriteJsonString(message, body);
    body.bytes := body.bytes + [RBRACE];
    assert body.bytes == DETAIL_PREFIX + JsonString(message) + [RBRACE];
    DetailRoundTrip(message);
    response := HandlerResponse(422, ApplicationJson, body.bytes);
  }

  /** The bytes of `{"detail":`. */
  const DETAIL_PREFIX: seq<Byte> := [0x7B, 0x22, 0x64, 0x65, 0x74, 0x61, 0x69, 0x6C, 0x22, 0x3A]

  lemma {:induction false} DetailPrefix()
    ensures DETAIL_PREFIX == [LBRACE] + JsonString(Chars("detail")) + [COLON]
  {
    var t := Chars("detail");
    assert t == [0x64, 0x65, 0x74, 0x61, 0x69, 0x6C];
    EscapedPlain(t);
    hide Escaped, Chars;
    assert JsonString(t) == [QUOTE] + t + [QUOTE];
  }

  /** Printable ASCII other than the quote and the backslash is written as it is. */
  lemma {:induction false} EscapedPlain(t: Text)
    requires forall i :: 0 <= i < |t| ==> 0x20 <= t[i] < 0x80 && t[i] != QUOTE && t[i] != BACKSLASH
    ensures Escaped(t) == t
  {
    if t != [] {
      EscapedPlain(t[1..]);
      assert EscapeChar(t[0]) == [t[0]];
    }
  }

  /** The literal prefix, the escaped message and the closing brace read back as
      an object with that one member. */
  lemma {:induction false} DetailRoundTrip(message: Text)
    ensures ParseValue(DETAIL_PREFIX + JsonString(message) + [RBRACE])
         == Parsed(Object([Member(Chars("detail"), String(message))]), [])
  {
    hide JsonString, Chars, ParseValue;
    DetailPrefix();
    var entry := Entry(PyStr(Chars("detail")), PyStr(message));
    var v := PyDict([entry]);
    ValueRoundTrip(v, []);
    assert [entry][1..] == [];
    assert DecodedEntries([entry]) == [DecodedEntry(entry)] + DecodedEntries([]);
    assert Decoded(v) == Object([Member(Chars("detail"), String(message))]);
    assert EmitEntries([entry], true) == Then(Separator(true), Then(EmitEntry(entry), EmitEntries([], false)));
    assert Emit(v).bytes == DETAIL_PREFIX + JsonString(message) + [RBRACE];
    assert Emit(v).bytes + [] == Emit(v).bytes;
  }
}
