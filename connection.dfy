/**
 * The connection: the table of outstanding request ids and their queues, the admission
 * permits that bound how many requests are in flight, submission, the per-frame step of
 * the receive loop, and the watcher that reclaims a request once its stream is done.
 * The websocket, the event loop, `json.dumps` and `uuid4` are not modelled: frames are
 * returned or passed in, a suspension is reported as an outcome, serialisation is a
 * partial function parameter, and request ids are parameters.
 */
module Driver {
  import opened Wrappers
  import opened JsonValue
  import opened Utf8
  import opened Framing
  import opened Dispatch
  import opened Stream

  const DefaultLanguage: string := "gremlin-groovy"
  const DefaultMaxInflight: nat := 64

  /** What one step of the receive loop does with a decoded response document. */
  datatype ReceiveOutcome =
    | NotReading            // the receive task has already ended; the document is never read
    | Routed                // the frame's items were appended to its request's queue
    | MalformedResponse     // a missing or ill-typed field: the exception ends the receive task
    | UnknownRequest        // no queue for the request id: KeyError ends the receive task
    | AuthenticationFailure // 407: `self._processor` does not exist; AttributeError ends the task

  /** How a submission ends. */
  datatype SubmitOutcome =
    | Blocked             // no permit is free: `submit` waits at the semaphore
    | SerializationError  // `json.dumps` raised after the permit was taken
    | Submitted           // the request is registered and its frame sent

  /** What the cleanup watcher of one request does when it runs. */
  datatype TerminateOutcome =
    | Waiting         // the stream is not done yet: the watcher keeps waiting
    | Released        // the request id was removed and its permit returned
    | MissingRequest  // the id is no longer in the table: `del` raises KeyError

  /** `lang or self._lang`: a falsy language falls back to the connection's language. */
  function EffectiveLanguage(lang: Json, default: string): (r: Json)
    ensures Truthy(lang) ==> r == lang
    ensures !Truthy(lang) ==> r == Str(default)
  {
    if Truthy(lang) then lang else Str(default)
  }

  /** `traversal_source` defaults to an empty dict only when it is None. */
  function DefaultAliases(traversalSource: Json): (r: Json)
    ensures traversalSource != Null ==> r == traversalSource
    ensures traversalSource == Null ==> r == Obj(map[])
  {
    if traversalSource == Null then Obj(map[]) else traversalSource
  }

  /** The record a submission sends, after its defaults are applied. */
  function SubmittedRecord(requestId: string, gremlin: Json, bindings: Json, lang: Json,
                           traversalSource: Json, session: Json, defaultLang: string): Json {
    PreparedRecord(requestId, gremlin, bindings, EffectiveLanguage(lang, defaultLang),
                   DefaultAliases(traversalSource), session)
  }

  /**
   * A submitted record carries the caller's language, or the connection's default when
   * the caller's is falsy, and the caller's aliases, or `{}` when they are None.
   */
  lemma SubmittedRecordDefaults(requestId: string, gremlin: Json, bindings: Json, lang: Json,
                                traversalSource: Json, session: Json, defaultLang: string)
    ensures var args := SubmittedRecord(requestId, gremlin, bindings, lang, traversalSource, session, defaultLang).fields["args"].fields;
      && args["language"] == (if Truthy(lang) then lang else Str(defaultLang))
      && args["aliases"] == (if traversalSource == Null then Obj(map[]) else traversalSource)
  {
  }

  class Connection {
    /** `_response_queues`: request id to the queue its response stream drains. */
    var queues: map<string, ResponseQueue>
    /** The free permits of `_semaphore`. */
    var permits: nat
    const maxInflight: nat
    /** `_lang`, the language used when a submission gives none. */
    const lang: string
    /** Whether `response_timeout` is set. */
    const timed: bool
    /** Whether the `_receive` task is still running. */
    var receiving: bool
    /** Permits taken by submissions that raised before registering a queue; never released. */
    ghost var leaked: nat

    /**
     * Every permit is free, held by an in-flight request, or leaked; and every request
     * has a queue of its own.
     */
    ghost predicate Valid()
      reads this
    {
      && |queues| + permits + leaked == maxInflight
      && forall a, b :: a in queues && b in queues && a != b ==> queues[a] != queues[b]
    }

    /** `__init__`: no request in flight, every permit free, the receive task started. */
    constructor (maxInflight: nat, lang: string, timed: bool)
      ensures Valid()
      ensures queues == map[] && permits == maxInflight && leaked == 0 && receiving
      ensures this.maxInflight == maxInflight && this.lang == lang && this.timed == timed
    {
      queues := map[];
      permits := maxInflight;
      this.maxInflight := maxInflight;
      this.lang := lang;
      this.timed := timed;
      receiving := true;
      leaked := 0;
    }

    /**
     * `submit`: takes a permit, registers a fresh, empty queue under the request id and
     * returns a stream bound to it together with the frame that is sent. With no permit
     * free the call would wait; here it reports that and changes nothing. When the record
     * cannot be serialised, `json.dumps` raises after the permit was taken and before any
     * queue is registered: the permit is never returned.
     */
    method Submit(gremlin: Json, bindings: Json, lang: Json, traversalSource: Json, session: Json,
                  requestId: string, dumps: Json -> Option<string>)
      returns (outcome: SubmitOutcome, resp: Response?, frame: seq<Byte>)
      requires Valid()
      requires requestId !in queues
      modifies this
      ensures Valid() && receiving == old(receiving)
      ensures outcome.Blocked? <==> old(permits) == 0
      ensures outcome.Blocked? ==>
        queues == old(queues) && permits == old(permits) && leaked == old(leaked) && resp == null
      ensures outcome.SerializationError? <==>
        old(permits) > 0 && dumps(SubmittedRecord(requestId, gremlin, bindings, lang, traversalSource, session, this.lang)).None?
      ensures outcome.SerializationError? ==>
        queues == old(queues) && permits == old(permits) - 1 && leaked == old(leaked) + 1 && resp == null
      ensures outcome.Submitted? ==>
        && permits == old(permits) - 1 && leaked == old(leaked)
        && requestId in queues && queues == old(queues)[requestId := queues[requestId]]
        && fresh(queues[requestId]) && queues[requestId].items == []
        && resp != null && fresh(resp) && resp.Valid() && !resp.done
        && resp.queue == queues[requestId] && resp.timed == timed
        && var body := dumps(SubmittedRecord(requestId, gremlin, bindings, lang, traversalSource, session, this.lang));
           body.Some? && ParseFrame(frame) == Success((JsonMimeType, body.value))
    {
      if permits == 0 {
        return Blocked, null, [];
      }
      permits := permits - 1;
      var aliases := DefaultAliases(traversalSource);
      var language := EffectiveLanguage(lang, this.lang);
      var prepared := PrepareMessage(gremlin, bindings, language, aliases, session, requestId, dumps);
      assert PreparedRecord(requestId, gremlin, bindings, language, aliases, session) ==
             SubmittedRecord(requestId, gremlin, bindings, lang, traversalSource, session, this.lang);
      if prepared.Failure? {
        leaked := leaked + 1;
        return SerializationError, null, [];
      }
      frame := prepared.value;
      var queue := new ResponseQueue();
      assert |queues[requestId := queue]| == |queues| + 1;
      queues := queues[requestId := queue];
      resp := new Response(queue, timed);
      outcome := Submitted;
    }

    /**
     * `_terminate_response`: once the stream is done, removes exactly its request id and
     * returns one permit.
     */
    method TerminateResponse(resp: Response, requestId: string) returns (outcome: TerminateOutcome)
      requires Valid()
      modifies this
      ensures Valid() && receiving == old(receiving) && leaked == old(leaked)
      ensures !resp.done ==> outcome == Waiting
      ensures resp.done && requestId in old(queues) ==>
        outcome == Released && queues == old(queues) - {requestId} && permits == old(permits) + 1
      ensures resp.done && requestId !in old(queues) ==> outcome == MissingRequest
      ensures !outcome.Released? ==> queues == old(queues) && permits == old(permits)
    {
      if !resp.done {
        return Waiting;
      }
      if requestId !in queues {
        return MissingRequest;
      }
      queues := queues - {requestId};
      permits := permits + 1;
      return Released;
    }

    /**
     * One turn of `_receive` on a decoded document: appends the frame's items to the
     * queue of its request id and to no other queue; an error ends the receive task.
     */
    method Receive(doc: Json) returns (outcome: ReceiveOutcome)
      requires Valid()
      modifies this, queues.Values
      ensures Valid() && queues == old(queues) && permits == old(permits) && leaked == old(leaked)
      ensures !old(receiving) ==> outcome == NotReading && !receiving
      ensures old(receiving) && ParseInbound(doc).None? ==> outcome == MalformedResponse && !receiving
      ensures old(receiving) && ParseInbound(doc).Some? ==>
        var f := ParseInbound(doc).value;
        && (f.requestId !in queues ==> outcome == UnknownRequest && !receiving)
        && (f.requestId in queues && f.statusCode == StatusAuthenticate ==> outcome == AuthenticationFailure && !receiving)
        && (f.requestId in queues && f.statusCode != StatusAuthenticate ==> outcome == Routed && receiving)
      ensures forall id :: id in queues ==> queues[id].items == old(queues[id].items) + QueuedFor(old(receiving), doc, id)
    {
      if !receiving {
        return NotReading;
      }
      var parsed := ParseInbound(doc);
      if parsed.None? {
        receiving := false;
        return MalformedResponse;
      }
      var f := parsed.value;
      if f.requestId !in queues {
        receiving := false;
        return UnknownRequest;
      }
      var q := queues[f.requestId];
      if f.statusCode == StatusAuthenticate {
        receiving := false;
        return AuthenticationFailure;
      } else if f.statusCode == StatusNoContent {
        q.PutNowait(None);
      } else {
        if Truthy(f.data.AsJson()) {
          var i := 0;
          while i < |f.data.items|
            invariant 0 <= i <= |f.data.items|
            invariant q.items == old(q.items) + DataMessages(f)[..i]
            modifies q
          {
            q.PutNowait(Some(Message(f.statusCode, f.data.items[i], f.message)));
            i := i + 1;
          }
        } else {
          q.PutNowait(Some(Message(f.statusCode, f.data.AsJson(), f.message)));
        }
        if f.statusCode != StatusPartialContent {
          q.PutNowait(None);
        }
      }
      return Routed;
    }
  }

  /** The items one receive step appends to the queue of `id`. */
  function QueuedFor(reading: bool, doc: Json, id: string): (r: seq<QueueItem>)
    ensures r != [] ==> reading && ParseInbound(doc).Some? && ParseInbound(doc).value.requestId == id
    ensures reading && ParseInbound(doc).Some? && ParseInbound(doc).value.requestId == id ==>
      r == DispatchItems(ParseInbound(doc).value)
  {
    if reading && ParseInbound(doc).Some? && ParseInbound(doc).value.requestId == id
    then DispatchItems(ParseInbound(doc).value)
    else []
  }

  /** A response document is queued for its own request id, and only for that one. */
  lemma QueuedForResponse(f: InboundFrame)
    ensures QueuedFor(true, ResponseDocument(f), f.requestId) == DispatchItems(f)
    ensures forall id :: id != f.requestId ==> QueuedFor(true, ResponseDocument(f), id) == []
  {
    ParseResponseDocument(f);
  }

  /** `json.dumps` of a serialiser that accepts every value. */
  function Serialising(dumps: Json -> string): (d: Json -> Option<string>)
    ensures forall j :: d(j) == Some(dumps(j))
  {
    j => Some(dumps(j))
  }

  /**
   * With one permit, a second submission waits while the first request is in flight;
   * once the first stream times out and its watcher runs, the second one goes through.
   */
  method TimeoutReleasesPermit(dumps: Json -> string) returns (blocked: bool, timedOut: bool, resubmitted: bool)
    ensures blocked && timedOut && resubmitted
  {
    var c := new Connection(1, DefaultLanguage, true);
    var okA, a, _ := c.Submit(Str("g.V()"), Null, Null, Null, Null, "a", Serialising(dumps));
    var okB, _, _ := c.Submit(Str("g.E()"), Null, Null, Null, Null, "b", Serialising(dumps));
    blocked := okB.Blocked?;
    var outcome := a.FetchData();
    timedOut := outcome == ResponseTimeout;
    var t := c.TerminateResponse(a, "a");
    var okB2, _, _ := c.Submit(Str("g.E()"), Null, Null, Null, Null, "b", Serialising(dumps));
    resubmitted := okB2.Submitted?;
  }

  /**
   * With one permit, a submission whose bindings cannot be serialised raises and keeps
   * the permit, so every later submission on the connection waits for good.
   */
  method UnserializableRequestLeaksPermit(bindings: Json, dumps: Json -> Option<string>)
    returns (first: SubmitOutcome, second: SubmitOutcome)
    requires dumps(SubmittedRecord("a", Str("g.V()"), bindings, Null, Null, Null, DefaultLanguage)).None?
    ensures first == SerializationError && second == Blocked
  {
    var c := new Connection(1, DefaultLanguage, true);
    var respA, frameA;
    first, respA, frameA := c.Submit(Str("g.V()"), bindings, Null, Null, Null, "a", dumps);
    var respB, frameB;
    second, respB, frameB := c.Submit(Str("g.V()"), Null, Null, Null, Null, "b", dumps);
  }

  /**
   * Submits a request on a fresh connection and runs one receive turn on the server's
   * answer to it: the returned stream's queue holds exactly what that frame dispatches.
   */
  method SubmitAndReceive(frame: InboundFrame, dumps: Json -> string) returns (r: Response)
    requires frame.statusCode != StatusAuthenticate
    ensures fresh(r) && fresh(r.queue) && r.Valid() && !r.done && r.timed
    ensures r.queue.items == DispatchItems(frame)
  {
    var c := new Connection(DefaultMaxInflight, DefaultLanguage, true);
    var ok, resp, _ := c.Submit(Str("g.V()"), Null, Null, Null, Null, frame.requestId, Serialising(dumps));
    r := resp;
    ghost var q := c.queues[frame.requestId];
    assert q == r.queue && q.items == [];
    QueuedForResponse(frame);
    var routed := c.Receive(ResponseDocument(frame));
    assert q.items == DispatchItems(frame);
  }

  /** Two requests "a" and "b" in flight on a fresh connection, each with its own empty queue. */
  method TwoInFlight(dumps: Json -> string) returns (c: Connection, a: Response, b: Response)
    ensures fresh(c) && c.Valid() && c.receiving
    ensures c.queues == map["a" := a.queue, "b" := b.queue] && a.queue != b.queue
    ensures fresh(a) && fresh(a.queue) && a.Valid() && !a.done && a.timed && a.queue.items == []
    ensures fresh(b) && fresh(b.queue) && b.Valid() && !b.done && b.timed && b.queue.items == []
  {
    c := new Connection(DefaultMaxInflight, DefaultLanguage, true);
    var okA, respA, _ := c.Submit(Str("g.V()"), Null, Null, Null, Null, "a", Serialising(dumps));
    var okB, respB, _ := c.Submit(Str("g.E()"), Null, Null, Null, Null, "b", Serialising(dumps));
    a, b := respA, respB;
  }

  /**
   * Two requests "a" and "b" in flight on a fresh connection; "a" times out and its
   * watcher removes it, while the stream of "b" is still open and empty.
   */
  method FirstTimesOut(dumps: Json -> string) returns (c: Connection, b: Response)
    ensures fresh(c) && c.Valid() && c.receiving
    ensures c.queues == map["b" := b.queue]
    ensures fresh(b) && fresh(b.queue) && b.Valid() && !b.done && b.timed && b.queue.items == []
  {
    var a;
    c, a, b := TwoInFlight(dumps);
    ghost var qa, qb := a.queue, b.queue;
    var timedOut := a.FetchData();
    assert a.done && qb.items == [];
    var t := c.TerminateResponse(a, "a");
    assert c.queues == map["a" := qa, "b" := qb] - {"a"} == map["b" := qb];
  }

  /**
   * After the watcher of a timed-out request "a" has removed it, the server's late answer
   * to "a" ends the receive task (`KeyError`), so the answer to the other request "b" is
   * never read and the stream of "b" can only time out.
   */
  method LateResponseEndsReceiving(dumps: Json -> string) returns (late: ReceiveOutcome, next: ReceiveOutcome, other: FetchOutcome)
    ensures late == UnknownRequest && next == NotReading && other == ResponseTimeout
  {
    var c, b := FirstTimesOut(dumps);
    ghost var qb := b.queue;
    var lateFrame := InboundFrame("a", StatusSuccess, DataList([Num(1)]), "");
    QueuedForResponse(lateFrame);
    late := c.Receive(ResponseDocument(lateFrame));
    assert qb.items == [];
    next := c.Receive(ResponseDocument(InboundFrame("b", StatusSuccess, DataList([Num(2)]), "")));
    assert qb.items == [] && b.queue == qb;
    other := b.FetchData();
  }

  /**
   * A single-chunk 200 response is fetched as its one chunk and then end-of-stream,
   * and the stream keeps answering end-of-stream afterwards.
   */
  method SingleChunkResponse(dumps: Json -> string) returns (first: FetchOutcome, second: FetchOutcome, third: FetchOutcome)
    ensures first == Payload(Num(1)) && second == EndOfStream && third == EndOfStream
  {
    var r := SubmitAndReceive(InboundFrame("a", StatusSuccess, DataList([Num(1)]), ""), dumps);
    assert r.State() == Open([Some(Message(StatusSuccess, Num(1), "")), None]);
    first := r.FetchData();
    second := r.FetchData();
    third := r.FetchData();
  }

  /**
   * An error status closes the stream: the error is raised once, with the code and the
   * server's message, and every later fetch answers end-of-stream.
   */
  method ErrorResponse(code: int, message: string, dumps: Json -> string) returns (first: FetchOutcome, second: FetchOutcome)
    requires !IsSuccessStatus(code) && code != StatusNoContent && code != StatusAuthenticate
    ensures first == GremlinServerError(ServerErrorText(code, message)) && second == EndOfStream
  {
    var r := SubmitAndReceive(InboundFrame("a", code, DataNull, message), dumps);
    assert r.State() == Open([Some(Message(code, Null, message)), None]);
    first := r.FetchData();
    second := r.FetchData();
  }
}
