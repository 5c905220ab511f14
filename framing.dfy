/**
 * Outbound framing: the request record sent for a script, the session rule, and the
 * binary frame `[mime length][mime type][UTF-8 JSON body]` written to the websocket.
 * `json.dumps` is not modelled; it is passed in as `dumps`, which fails (None) on a value
 * that JSON cannot represent.
 */
module Framing {
  import opened Wrappers
  import opened JsonValue
  import opened Utf8

  const JsonMimeType: string := "application/json"

  /** The literal header bytes the driver writes: `b'\x10'` and `b'application/json'`. */
  const MimeLength: Byte := 0x10
  const MimeBytes: seq<Byte> :=
    [0x61, 0x70, 0x70, 0x6C, 0x69, 0x63, 0x61, 0x74, 0x69, 0x6F, 0x6E, 0x2F, 0x6A, 0x73, 0x6F, 0x6E]

  datatype FramingError =
    | UnknownMimeType   // ValueError('Unknown mime type.')
    | MalformedFrame    // only produced by the reader ParseFrame
    | NotSerializable   // json.dumps raises TypeError

  /** The literal header is the length, then the ASCII bytes, of the MIME type. */
  lemma {:induction false} HeaderSpellsMimeType()
    ensures MimeLength == |JsonMimeType|
    ensures MimeBytes == Encode(JsonMimeType)
  {
    EncodeAsciiIs(JsonMimeType, MimeBytes);
  }

  /** The header bytes read back as the MIME type. */
  lemma MimeBytesDecode()
    ensures Decode(MimeBytes) == Some(JsonMimeType)
  {
    HeaderSpellsMimeType();
    DecodeEncode(JsonMimeType);
  }

  /**
   * `_set_message_header`: only "application/json" is known; the frame is its length
   * byte, its bytes (`HeaderSpellsMimeType`) and the UTF-8 encoding of the message.
   */
  function SetMessageHeader(message: string, mimeType: string): (r: Result<seq<Byte>, FramingError>)
    ensures r.Success? <==> mimeType == JsonMimeType
    ensures r.Failure? ==> r.error == UnknownMimeType
    ensures r.Success? ==>
      && |r.value| == 1 + |mimeType| + |Encode(message)|
      && r.value[0] == |mimeType|
      && r.value[1..1 + |mimeType|] == MimeBytes
      && r.value[1 + |mimeType|..] == Encode(message)
  {
    if mimeType == JsonMimeType then
      Success([MimeLength] + MimeBytes + Encode(message))
    else
      Failure(UnknownMimeType)
  }

  /** The receiving side of a frame: the MIME type and the message, or a malformed frame. */
  function ParseFrame(frame: seq<Byte>): Result<(string, string), FramingError> {
    if frame == [] || |frame| < 1 + frame[0] as int then Failure(MalformedFrame)
    else
      var n := frame[0] as int;
      match (Decode(frame[1..1 + n]), Decode(frame[1 + n..]))
      case (Some(mime), Some(message)) => Success((mime, message))
      case _ => Failure(MalformedFrame)
  }

  /** Reading a frame back gives the MIME type and exactly the message that was framed. */
  lemma FrameRoundTrip(message: string)
    ensures SetMessageHeader(message, JsonMimeType).Success?
    ensures ParseFrame(SetMessageHeader(message, JsonMimeType).value) == Success((JsonMimeType, message))
  {
    var frame := SetMessageHeader(message, JsonMimeType).value;
    assert frame[0] as int == 16 && frame[1..17] == MimeBytes && frame[17..] == Encode(message);
    MimeBytesDecode();
    DecodeEncode(message);
  }

  /** Every frame starts with the same 17 header bytes; the body is everything after them. */
  lemma FrameBodyFollowsHeader(message: string)
    ensures SetMessageHeader(message, JsonMimeType).Success?
    ensures SetMessageHeader(message, JsonMimeType).value[..17] == [MimeLength] + MimeBytes
    ensures SetMessageHeader(message, JsonMimeType).value[17..] == Encode(message)
  {
  }

  /** The request record `_prepare_message` builds before finalising it. */
  function RequestRecord(requestId: string, gremlin: Json, bindings: Json, lang: Json, aliases: Json): (r: Json)
    ensures HasArgs(r)
  {
    Obj(map[
      "requestId" := Str(requestId),
      "op" := Str("eval"),
      "processor" := Str(""),
      "args" := Obj(map[
        "gremlin" := gremlin,
        "bindings" := bindings,
        "language" := lang,
        "aliases" := aliases])])
  }

  /** A record whose `args` entry is a dict, as both builders of records make it. */
  predicate HasArgs(message: Json) {
    message.Obj? && "args" in message.fields && message.fields["args"].Obj?
  }

  /** The record `_finalize_message` serialises: with a truthy session, the session processor. */
  function WithSession(message: Json, session: Json): Json
    requires Truthy(session) ==> HasArgs(message)
  {
    if Truthy(session) then
      var args := message.fields["args"];
      Obj(message.fields["processor" := Str("session")]["args" := Obj(args.fields["session" := session])])
    else
      message
  }

  /**
   * Without a session the record is left as it is; with one, `processor` becomes
   * "session", the session is added to `args`, and nothing else changes.
   */
  lemma WithSessionUpdates(message: Json, session: Json)
    requires Truthy(session) ==> HasArgs(message)
    ensures !Truthy(session) ==> WithSession(message, session) == message
    ensures Truthy(session) ==>
      var r := WithSession(message, session);
      && HasArgs(r)
      && r.fields.Keys == message.fields.Keys + {"processor"}
      && r.fields["processor"] == Str("session")
      && r.fields["args"].fields == message.fields["args"].fields["session" := session]
      && (forall k :: k in message.fields && k != "processor" && k != "args" ==> r.fields[k] == message.fields[k])
  {
  }

  /** The record a submission sends: the request record with the session rule applied. */
  function PreparedRecord(requestId: string, gremlin: Json, bindings: Json, lang: Json, aliases: Json, session: Json): Json {
    WithSession(RequestRecord(requestId, gremlin, bindings, lang, aliases), session)
  }

  /**
   * The record a submission sends: `op` is "eval", `args` holds exactly the script,
   * bindings, language and aliases, plus the session when one is given, in which case
   * the processor is "session" rather than "".
   */
  lemma PreparedRecordShape(requestId: string, gremlin: Json, bindings: Json, lang: Json, aliases: Json, session: Json)
    ensures var r := PreparedRecord(requestId, gremlin, bindings, lang, aliases, session);
      && r.Obj? && r.fields.Keys == {"requestId", "op", "processor", "args"}
      && r.fields["requestId"] == Str(requestId) && r.fields["op"] == Str("eval")
      && r.fields["processor"] == (if Truthy(session) then Str("session") else Str(""))
      && r.fields["args"].Obj?
      && r.fields["args"].fields.Keys ==
         {"gremlin", "bindings", "language", "aliases"} + (if Truthy(session) then {"session"} else {})
      && var args := r.fields["args"].fields;
         && args["gremlin"] == gremlin && args["bindings"] == bindings
         && args["language"] == lang && args["aliases"] == aliases
         && (Truthy(session) ==> args["session"] == session)
  {
  }

  /**
   * `_finalize_message`: updates the record in place when a session is given, serialises
   * it and adds the JSON header. Serialisation fails (`json.dumps` raises `TypeError`)
   * when the record holds a value JSON cannot represent; the header step cannot fail here.
   */
  method FinalizeMessage(message: Json, session: Json, dumps: Json -> Option<string>)
    returns (r: Result<seq<Byte>, FramingError>)
    requires Truthy(session) ==> HasArgs(message)
    ensures dumps(WithSession(message, session)).None? ==> r == Failure(NotSerializable)
    ensures dumps(WithSession(message, session)).Some? ==>
      var body := dumps(WithSession(message, session)).value;
      && r == SetMessageHeader(body, JsonMimeType) && r.Success?
      && r.value[..17] == [MimeLength] + MimeBytes
      && r.value[17..] == Encode(body)
  {
    var m := message;
    if Truthy(session) {
      m := Obj(m.fields["processor" := Str("session")]);
      var args := m.fields["args"];
      m := Obj(m.fields["args" := Obj(args.fields["session" := session])]);
      assert args == message.fields["args"];
    }
    assert m == WithSession(message, session);
    var body := dumps(m);
    if body.None? {
      return Failure(NotSerializable);
    }
    r := SetMessageHeader(body.value, JsonMimeType);
    FrameBodyFollowsHeader(body.value);
  }

  /**
   * `_prepare_message`: the frame that carries the prepared record, or the serialisation
   * error when the record cannot be serialised.
   */
  method PrepareMessage(gremlin: Json, bindings: Json, lang: Json, aliases: Json, session: Json,
                        requestId: string, dumps: Json -> Option<string>)
    returns (r: Result<seq<Byte>, FramingError>)
    ensures r.Failure? <==> dumps(PreparedRecord(requestId, gremlin, bindings, lang, aliases, session)).None?
    ensures r.Failure? ==> r.error == NotSerializable
    ensures r.Success? ==>
      var body := dumps(PreparedRecord(requestId, gremlin, bindings, lang, aliases, session)).value;
      && |r.value| >= 17
      && ParseFrame(r.value) == Success((JsonMimeType, body))
      && r.value[17..] == Encode(body)
  {
    var message := RequestRecord(requestId, gremlin, bindings, lang, aliases);
    r := FinalizeMessage(message, session, dumps);
    if r.Success? {
      FrameRoundTrip(dumps(PreparedRecord(requestId, gremlin, bindings, lang, aliases, session)).value);
    }
  }
}
