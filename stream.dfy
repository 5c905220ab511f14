/**
 * The response stream of one request: a FIFO queue fed by the receive loop and drained
 * by `fetch_data`, with the `error_handler` decorator folded in. The pure `FetchStep`
 * is the meaning of one fetch; the `Response` class is proved to follow it.
 */
module Stream {
  import opened Wrappers
  import opened JsonValue
  import opened Decimal
  import opened Dispatch

  /** What one `fetch_data` call yields, or the exception it raises. */
  datatype FetchOutcome =
    | EndOfStream                      // returns None
    | Payload(data: Json)              // returns the `data` of a 200 or 206 message
    | GremlinServerError(text: string) // raises GremlinServerError
    | ResponseTimeout                  // raises ResponseTimeoutError
    | Pending                          // no timeout configured and nothing queued: the call keeps waiting

  predicate IsSuccessStatus(code: int) {
    code == StatusSuccess || code == StatusPartialContent
  }

  /** Index of the first ':' in `t`, or `|t|` when there is none. */
  function FirstColon(t: string): (i: nat)
    ensures i <= |t|
    ensures i < |t| ==> t[i] == ':'
    ensures forall j :: 0 <= j < i ==> t[j] != ':'
  {
    if t == [] || t[0] == ':' then 0 else 1 + FirstColon(t[1..])
  }

  /** Reads the status code and the server's message back out of an error text. */
  function SplitServerErrorText(t: string): Option<(int, string)> {
    var i := FirstColon(t);
    if i + 1 < |t| && t[i + 1] == ' ' then
      match ParseDecimal(t[..i])
      case Some(code) => Some((code, t[i + 2..]))
      case None => None
    else None
  }

  /**
   * `"{0}: {1}".format(status_code, message)`: the text keeps both the status code and
   * the message, recoverably.
   */
  function ServerErrorText(code: int, message: string): (t: string)
    ensures SplitServerErrorText(t) == Some((code, message))
  {
    var d := DecimalString(code);
    var t := d + ": " + message;
    assert forall j :: 0 <= j < |d| ==> t[j] == d[j] && t[j] != ':';
    assert t[|d|] == ':';
    assert FirstColon(t) == |d|;
    assert t[..|d|] == d;
    assert t[|d| + 2..] == message;
    DecimalRoundTrip(code);
    t
  }

  /** The abstract state of a stream: open with the items still queued, or closed. */
  datatype StreamState = Open(pending: seq<QueueItem>) | Closed

  /**
   * One `fetch_data` call: a closed stream yields end-of-stream and stays closed; an
   * empty queue times out (or waits, when no timeout is configured); a sentinel closes
   * the stream; a message with a status other than 200 or 206 closes it and raises; a
   * success message yields its `data` and leaves the rest of the queue.
   */
  function FetchStep(s: StreamState, timed: bool): (r: (FetchOutcome, StreamState))
    ensures s.Closed? ==> r == (EndOfStream, Closed)
    ensures r.0.Pending? <==> s.Open? && s.pending == [] && !timed
    ensures r.0.Pending? ==> r.1 == s
    ensures r.0.ResponseTimeout? <==> s.Open? && s.pending == [] && timed
    ensures r.0.Payload? <==>
      s.Open? && s.pending != [] && s.pending[0].Some? && IsSuccessStatus(s.pending[0].value.statusCode)
    ensures r.0.Payload? ==> r.0.data == s.pending[0].value.data && r.1 == Open(s.pending[1..])
    ensures r.0.GremlinServerError? <==>
      s.Open? && s.pending != [] && s.pending[0].Some? && !IsSuccessStatus(s.pending[0].value.statusCode)
    ensures r.0.GremlinServerError? ==>
      r.0.text == ServerErrorText(s.pending[0].value.statusCode, s.pending[0].value.message)
    ensures !r.0.Payload? && !r.0.Pending? ==> r.1 == Closed
  {
    match s
    case Closed => (EndOfStream, Closed)
    case Open(q) =>
      if q == [] then
        if timed then (ResponseTimeout, Closed) else (Pending, s)
      else
        match q[0]
        case None => (EndOfStream, Closed)
        case Some(m) =>
          if IsSuccessStatus(m.statusCode) then (Payload(m.data), Open(q[1..]))
          else (GremlinServerError(ServerErrorText(m.statusCode, m.message)), Closed)
  }

  /**
   * What a caller sees by fetching until something other than a payload comes back:
   * zero or more payloads, then one final outcome.
   */
  function Drain(s: StreamState, timed: bool): (r: seq<FetchOutcome>)
    ensures r != [] && !r[|r| - 1].Payload?
    ensures forall i :: 0 <= i < |r| - 1 ==> r[i].Payload?
    decreases if s.Open? then |s.pending| + 1 else 0
  {
    var (outcome, next) := FetchStep(s, timed);
    if outcome.Payload? then [outcome] + Drain(next, timed) else [outcome]
  }

  /**
   * `async for` over a response (`__anext__`): yields each truthy result of `fetch_data`
   * and stops at the first result that is not one: a falsy payload or end-of-stream ends
   * the iteration, an error or a timeout is raised, and an empty queue keeps it waiting.
   * Returns every fetch outcome, the last one being the one that ended the iteration,
   * and the stream's state afterwards.
   */
  function Iterate(s: StreamState, timed: bool): (r: (seq<FetchOutcome>, StreamState))
    ensures r.0 != [] && !(r.0[|r.0| - 1].Payload? && Truthy(r.0[|r.0| - 1].data))
    ensures forall i :: 0 <= i < |r.0| - 1 ==> r.0[i].Payload? && Truthy(r.0[i].data)
    decreases if s.Open? then |s.pending| + 1 else 0
  {
    var (outcome, next) := FetchStep(s, timed);
    if outcome.Payload? && Truthy(outcome.data) then
      var (rest, last) := Iterate(next, timed);
      ([outcome] + rest, last)
    else ([outcome], next)
  }

  /** Every success message queued carries truthy data. */
  predicate TruthyChunks(items: seq<QueueItem>) {
    forall i :: 0 <= i < |items| && items[i].Some? && IsSuccessStatus(items[i].value.statusCode) ==>
      Truthy(items[i].value.data)
  }

  /** When no chunk is falsy, iterating a response observes exactly what fetching until the end does. */
  lemma {:induction false} IterateMatchesDrain(s: StreamState, timed: bool)
    requires s.Open? ==> TruthyChunks(s.pending)
    ensures Iterate(s, timed).0 == Drain(s, timed)
    decreases if s.Open? then |s.pending| + 1 else 0
  {
    var (outcome, next) := FetchStep(s, timed);
    if outcome.Payload? {
      assert Truthy(s.pending[0].value.data);
      assert next.pending == s.pending[1..];
      assert forall i :: 0 <= i < |next.pending| ==> next.pending[i] == s.pending[i + 1];
      IterateMatchesDrain(next, timed);
    }
  }

  /**
   * A falsy chunk (the `0` of a count, or the empty list queued for empty data) ends the
   * iteration before the end-of-stream sentinel is fetched, so the stream stays open and
   * is never marked done.
   */
  lemma FalsyChunkStopsIteration(m: Message, rest: seq<QueueItem>, timed: bool)
    requires IsSuccessStatus(m.statusCode) && !Truthy(m.data)
    ensures Iterate(Open([Some(m)] + rest), timed) == ([Payload(m.data)], Open(rest))
  {
    var s := Open([Some(m)] + rest);
    assert s.pending[0] == Some(m) && s.pending[1..] == rest;
  }

  /** The payloads a run of success messages yields. */
  function Payloads(items: seq<QueueItem>): seq<FetchOutcome>
    requires forall i :: 0 <= i < |items| ==> items[i].Some?
  {
    seq(|items|, i requires 0 <= i < |items| => Payload(items[i].value.data))
  }

  predicate AllSuccessMessages(items: seq<QueueItem>) {
    forall i :: 0 <= i < |items| ==> items[i].Some? && IsSuccessStatus(items[i].value.statusCode)
  }

  /** A success message at the head of the queue is delivered, and fetching goes on. */
  lemma DrainPayloadStep(q: seq<QueueItem>, timed: bool)
    requires q != [] && q[0].Some? && IsSuccessStatus(q[0].value.statusCode)
    ensures Drain(Open(q), timed) == [Payload(q[0].value.data)] + Drain(Open(q[1..]), timed)
  {
  }

  /** Success messages at the head of the queue are delivered one by one, in order. */
  lemma {:induction false} DrainSuccessMessages(items: seq<QueueItem>, tail: seq<QueueItem>, timed: bool)
    requires AllSuccessMessages(items)
    ensures Drain(Open(items + tail), timed) == Payloads(items) + Drain(Open(tail), timed)
  {
    if items != [] {
      var q := items + tail;
      assert q[0] == items[0] && q[1..] == items[1..] + tail;
      DrainPayloadStep(q, timed);
      DrainSuccessMessages(items[1..], tail, timed);
      var p := Payload(items[0].value.data);
      assert Payloads(items) == [p] + Payloads(items[1..]);
      ConcatAssoc([p], Payloads(items[1..]), Drain(Open(tail), timed));
    } else {
      assert items + tail == tail;
    }
  }

  /** The items the receive loop queues for a sequence of frames of one request. */
  function ResponseItems(frames: seq<InboundFrame>): (r: seq<QueueItem>)
    ensures AllPartial(frames) ==> None !in r
    ensures frames != [] && frames[|frames| - 1].statusCode !in {StatusPartialContent, StatusAuthenticate} ==>
      r != [] && r[|r| - 1] == None
  {
    if frames == [] then [] else DispatchItems(frames[0]) + ResponseItems(frames[1..])
  }

  /** The payloads the frames carry when their statuses are 200, 204 or 206. */
  function FramePayloads(frames: seq<InboundFrame>): seq<FetchOutcome> {
    if frames == [] then []
    else if frames[0].statusCode == StatusNoContent then FramePayloads(frames[1..])
    else Payloads(DataMessages(frames[0])) + FramePayloads(frames[1..])
  }

  predicate AllPartial(frames: seq<InboundFrame>) {
    forall i :: 0 <= i < |frames| ==> frames[i].statusCode == StatusPartialContent
  }

  /** The messages of a partial frame are all success messages. */
  lemma PartialFrameSucceeds(f: InboundFrame)
    requires f.statusCode == StatusPartialContent
    ensures AllSuccessMessages(DataMessages(f))
  {
  }

  /** The first partial frame queues exactly its messages. */
  lemma PartialFrameItems(frames: seq<InboundFrame>, tail: seq<QueueItem>)
    requires AllPartial(frames) && frames != []
    ensures ResponseItems(frames) + tail == DataMessages(frames[0]) + (ResponseItems(frames[1..]) + tail)
  {
    var f := frames[0];
    assert f.statusCode == StatusPartialContent;
    assert ResponseItems(frames) == DispatchItems(f) + ResponseItems(frames[1..]);
    assert DispatchItems(f) == DataMessages(f);
    ConcatAssoc(DataMessages(f), ResponseItems(frames[1..]), tail);
  }

  lemma PartialFramePayloads(frames: seq<InboundFrame>)
    requires AllPartial(frames) && frames != []
    ensures FramePayloads(frames) == Payloads(DataMessages(frames[0])) + FramePayloads(frames[1..])
  {
  }

  lemma ConcatAssoc<T>(a: seq<T>, b: seq<T>, c: seq<T>)
    ensures a + (b + c) == (a + b) + c
  {
  }

  /** Partial (206) frames queue their messages and no sentinel. */
  lemma {:induction false} DrainPartialFrames(frames: seq<InboundFrame>, tail: seq<QueueItem>, timed: bool)
    requires AllPartial(frames)
    ensures Drain(Open(ResponseItems(frames) + tail), timed) == FramePayloads(frames) + Drain(Open(tail), timed)
  {
    if frames != [] {
      var items, rest := DataMessages(frames[0]), ResponseItems(frames[1..]) + tail;
      PartialFrameItems(frames, tail);
      PartialFrameSucceeds(frames[0]);
      DrainSuccessMessages(items, rest, timed);
      DrainPartialFrames(frames[1..], tail, timed);
      PartialFramePayloads(frames);
      ConcatAssoc(Payloads(items), FramePayloads(frames[1..]), Drain(Open(tail), timed));
    } else {
      assert ResponseItems(frames) + tail == tail;
    }
  }

  /** A closing 200 or 204 frame yields its chunks and then end-of-stream. */
  lemma DrainClosingFrame(last: InboundFrame, rest: seq<QueueItem>, timed: bool)
    requires last.statusCode == StatusSuccess || last.statusCode == StatusNoContent
    ensures Drain(Open(DispatchItems(last) + rest), timed) == FramePayloads([last]) + [EndOfStream]
  {
    if last.statusCode == StatusSuccess {
      var items := DataMessages(last);
      assert DispatchItems(last) + rest == items + ([None] + rest);
      DrainSuccessMessages(items, [None] + rest, timed);
      assert FramePayloads([last]) == Payloads(items) + FramePayloads([]);
    } else {
      assert (DispatchItems(last) + rest)[0] == None;
    }
  }

  /**
   * A response of partial frames closed by a 200 or 204 frame is delivered as every
   * chunk in arrival order and then end-of-stream; nothing queued after it is read.
   */
  lemma SuccessfulResponseDrains(partial: seq<InboundFrame>, last: InboundFrame, rest: seq<QueueItem>, timed: bool)
    requires AllPartial(partial)
    requires last.statusCode == StatusSuccess || last.statusCode == StatusNoContent
    ensures Drain(Open(ResponseItems(partial + [last]) + rest), timed) ==
            FramePayloads(partial + [last]) + [EndOfStream]
  {
    ResponseItemsAppend(partial, last);
    ConcatAssoc(ResponseItems(partial), DispatchItems(last), rest);
    DrainPartialFrames(partial, DispatchItems(last) + rest, timed);
    DrainClosingFrame(last, rest, timed);
    FramePayloadsAppend(partial, last);
    ConcatAssoc(FramePayloads(partial), FramePayloads([last]), [EndOfStream]);
  }

  /**
   * A response whose final frame has an error status yields the chunks of the partial
   * frames before it and then the server error; the error frame's data is never delivered.
   */
  lemma FailedResponseDrains(partial: seq<InboundFrame>, last: InboundFrame, rest: seq<QueueItem>, timed: bool)
    requires AllPartial(partial)
    requires !IsSuccessStatus(last.statusCode)
    requires last.statusCode != StatusNoContent && last.statusCode != StatusAuthenticate
    ensures Drain(Open(ResponseItems(partial + [last]) + rest), timed) ==
            FramePayloads(partial) + [GremlinServerError(ServerErrorText(last.statusCode, last.message))]
  {
    ResponseItemsAppend(partial, last);
    assert ResponseItems(partial + [last]) + rest == ResponseItems(partial) + (DispatchItems(last) + rest);
    DrainPartialFrames(partial, DispatchItems(last) + rest, timed);
    var head := DispatchItems(last)[0];
    assert head == DataMessages(last)[0];
  }

  /**
   * A response that has so far sent only partial frames yields their chunks and then
   * times out, or keeps waiting when no timeout is configured.
   */
  lemma IncompleteResponseDrains(partial: seq<InboundFrame>, timed: bool)
    requires AllPartial(partial)
    ensures Drain(Open(ResponseItems(partial)), timed) ==
            FramePayloads(partial) + [if timed then ResponseTimeout else Pending]
  {
    DrainPartialFrames(partial, [], timed);
    assert ResponseItems(partial) + [] == ResponseItems(partial);
  }

  lemma {:induction false} ResponseItemsAppend(frames: seq<InboundFrame>, last: InboundFrame)
    ensures ResponseItems(frames + [last]) == ResponseItems(frames) + DispatchItems(last)
  {
    if frames == [] {
      assert [] + [last] == [last];
    } else {
      assert (frames + [last])[1..] == frames[1..] + [last];
      ResponseItemsAppend(frames[1..], last);
    }
  }

  lemma {:induction false} FramePayloadsAppend(frames: seq<InboundFrame>, last: InboundFrame)
    ensures FramePayloads(frames + [last]) == FramePayloads(frames) + FramePayloads([last])
  {
    if frames == [] {
      assert [] + [last] == [last];
    } else {
      assert (frames + [last])[1..] == frames[1..] + [last];
      FramePayloadsAppend(frames[1..], last);
    }
  }

  /** `asyncio.Queue` as the driver uses it: appended to by the receive loop, popped by fetch. */
  class ResponseQueue {
    var items: seq<QueueItem>

    constructor ()
      ensures items == []
    {
      items := [];
    }

    /** `put_nowait`: the queue is unbounded, so the item is always appended. */
    method PutNowait(item: QueueItem)
      modifies this
      ensures items == old(items) + [item]
    {
      items := items + [item];
    }
  }

  /** `Response`: the done flag and the queue; closing drops the queue reference. */
  class Response {
    var done: bool
    var queue: ResponseQueue?
    /** Whether a response timeout is configured (`timeout` is not None). */
    const timed: bool

    ghost predicate Valid()
      reads this
    {
      done <==> queue == null
    }

    function State(): (s: StreamState)
      reads this, queue
      requires Valid()
      ensures s.Closed? <==> done
    {
      if done then Closed else Open(queue.items)
    }

    constructor (queue: ResponseQueue, timed: bool)
      ensures Valid() && !done && this.queue == queue && this.timed == timed
    {
      done := false;
      this.queue := queue;
      this.timed := timed;
    }

    /** `close`: sets the done flag and drops the queue; closing again changes nothing. */
    method Close()
      modifies this
      ensures Valid() && done && queue == null
    {
      done := true;
      queue := null;
    }

    /** `fetch_data` under `error_handler`: one step of `FetchStep` on the stream's state. */
    method FetchData() returns (outcome: FetchOutcome)
      requires Valid()
      modifies this, queue
      ensures Valid()
      ensures (outcome, State()) == FetchStep(old(State()), timed)
      ensures old(done) ==> unchanged(this)
      ensures !done ==> queue == old(queue)
    {
      if done {
        return EndOfStream;
      }
      if queue.items == [] {
        if timed {
          Close();
          return ResponseTimeout;
        }
        return Pending;
      }
      var msg := queue.items[0];
      queue.items := queue.items[1..];
      if msg.None? {
        Close();
        return EndOfStream;
      }
      if !IsSuccessStatus(msg.value.statusCode) {
        Close();
        return GremlinServerError(ServerErrorText(msg.value.statusCode, msg.value.message));
      }
      return Payload(msg.value.data);
    }
  }
}
