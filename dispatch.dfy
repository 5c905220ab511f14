/**
 * The inbound side of the protocol: reading the fields of a server response and deciding
 * what is appended to the FIFO queue of the request it answers.
 */
module Dispatch {
  import opened Wrappers
  import opened JsonValue

  /** `Message(status_code, data, message)`: one unit of result delivered to a response stream. */
  datatype Message = Message(statusCode: int, data: Json, message: string)

  /** What a response queue holds: a message, or `None`, the end-of-stream sentinel. */
  type QueueItem = Option<Message>

  /** The `result.data` of a response: a list of result chunks, or `null`. */
  datatype ResultData = DataList(items: seq<Json>) | DataNull {
    function AsJson(): Json {
      match this
      case DataList(items) => Arr(items)
      case DataNull => Null
    }
  }

  /** The four fields the receive loop reads from a decoded response. */
  datatype InboundFrame = InboundFrame(requestId: string, statusCode: int, data: ResultData, message: string)

  /** Status codes with a meaning of their own to the receive loop. */
  const StatusSuccess: int := 200
  const StatusNoContent: int := 204
  const StatusPartialContent: int := 206
  const StatusAuthenticate: int := 407

  /**
   * A document the receive loop reads: a string `requestId`, a `status` dict with an
   * integer `code` and a string `message`, and a `result` dict whose `data` is a list or
   * null. Other keys (`status.attributes`, `result.meta`, ...) may be present.
   */
  predicate WellFormedResponse(doc: Json) {
    && doc.Obj? && "requestId" in doc.fields && doc.fields["requestId"].Str?
    && "status" in doc.fields && doc.fields["status"].Obj?
    && "code" in doc.fields["status"].fields && doc.fields["status"].fields["code"].Num?
    && "message" in doc.fields["status"].fields && doc.fields["status"].fields["message"].Str?
    && "result" in doc.fields && doc.fields["result"].Obj?
    && "data" in doc.fields["result"].fields
    && (doc.fields["result"].fields["data"].Arr? || doc.fields["result"].fields["data"].Null?)
  }

  /**
   * `message['requestId']`, `message['status']['code']`, `message['result']['data']` and
   * `message['status']['message']`: a document is read exactly when it is well formed,
   * and the frame carries exactly those four values.
   */
  function ParseInbound(doc: Json): (r: Option<InboundFrame>)
    ensures r.Some? <==> WellFormedResponse(doc)
    ensures r.Some? ==>
      && doc.fields["requestId"] == Str(r.value.requestId)
      && doc.fields["status"].fields["code"] == Num(r.value.statusCode)
      && doc.fields["status"].fields["message"] == Str(r.value.message)
      && doc.fields["result"].fields["data"] == r.value.data.AsJson()
  {
    if !doc.Obj? || "requestId" !in doc.fields || "status" !in doc.fields || "result" !in doc.fields then None
    else
      var status := doc.fields["status"];
      var result := doc.fields["result"];
      if !status.Obj? || !result.Obj? || "code" !in status.fields || "message" !in status.fields
         || "data" !in result.fields then None
      else
        match (doc.fields["requestId"], status.fields["code"], result.fields["data"], status.fields["message"])
        case (Str(id), Num(code), Arr(items), Str(msg)) => Some(InboundFrame(id, code, DataList(items), msg))
        case (Str(id), Num(code), Null, Str(msg)) => Some(InboundFrame(id, code, DataNull, msg))
        case _ => None
  }

  /** The response document a server sends for a frame: the inverse of `ParseInbound`. */
  function ResponseDocument(f: InboundFrame): Json {
    Obj(map[
      "requestId" := Str(f.requestId),
      "status" := Obj(map["code" := Num(f.statusCode), "message" := Str(f.message)]),
      "result" := Obj(map["data" := f.data.AsJson()])])
  }

  /** Reading the fields of a server response gives back exactly the frame it was built from. */
  lemma ParseResponseDocument(f: InboundFrame)
    ensures ParseInbound(ResponseDocument(f)) == Some(f)
  {
    var doc := ResponseDocument(f);
    assert doc.fields["status"].fields["code"] == Num(f.statusCode);
    assert doc.fields["result"].fields["data"] == f.data.AsJson();
  }

  /** A full server response, with `status.attributes` and `result.meta`, is read the same way. */
  lemma ParseResponseWithMetadata(f: InboundFrame, attributes: Json, meta: Json)
    ensures ParseInbound(Obj(map[
      "requestId" := Str(f.requestId),
      "status" := Obj(map["code" := Num(f.statusCode), "message" := Str(f.message), "attributes" := attributes]),
      "result" := Obj(map["data" := f.data.AsJson(), "meta" := meta])])) == Some(f)
  {
    var status := map["code" := Num(f.statusCode), "message" := Str(f.message), "attributes" := attributes];
    var result := map["data" := f.data.AsJson(), "meta" := meta];
    assert status["code"] == Num(f.statusCode) && status["message"] == Str(f.message);
    assert result["data"] == f.data.AsJson();
  }

  /** The messages a frame carries: one per chunk of a non-empty list, else one with the data itself. */
  function DataMessages(f: InboundFrame): (r: seq<QueueItem>)
    ensures |r| >= 1
    ensures forall i :: 0 <= i < |r| ==> r[i].Some? && r[i].value.statusCode == f.statusCode
                                          && r[i].value.message == f.message
    ensures Truthy(f.data.AsJson()) ==>
      |r| == |f.data.items| && forall i :: 0 <= i < |r| ==> r[i].value.data == f.data.items[i]
    ensures !Truthy(f.data.AsJson()) ==> r == [Some(Message(f.statusCode, f.data.AsJson(), f.message))]
  {
    if Truthy(f.data.AsJson()) then
      seq(|f.data.items|, i requires 0 <= i < |f.data.items| => Some(Message(f.statusCode, f.data.items[i], f.message)))
    else
      [Some(Message(f.statusCode, f.data.AsJson(), f.message))]
  }

  /**
   * The items the receive loop appends to the frame's queue: nothing for 407, a lone
   * sentinel for 204, otherwise the frame's messages in order followed by a sentinel
   * exactly when the status is not 206.
   */
  function DispatchItems(f: InboundFrame): (r: seq<QueueItem>)
    ensures f.statusCode == StatusAuthenticate ==> r == []
    ensures f.statusCode == StatusNoContent ==> r == [None]
    ensures f.statusCode != StatusAuthenticate && f.statusCode != StatusNoContent ==>
      && |r| == |DataMessages(f)| + (if f.statusCode == StatusPartialContent then 0 else 1)
      && r[..|DataMessages(f)|] == DataMessages(f)
      && (None in r <==> f.statusCode != StatusPartialContent)
  {
    if f.statusCode == StatusAuthenticate then []
    else if f.statusCode == StatusNoContent then [None]
    else if f.statusCode != StatusPartialContent then DataMessages(f) + [None]
    else DataMessages(f)
  }
}
