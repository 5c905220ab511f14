# Goblin driver connection and providers, modelled in Dafny

This project models the core of Goblin's asynchronous Gremlin Server driver: the
connection in `goblin/driver/connection.py` and the provider plugins in
`goblin/provider.py`.

- **Outbound.** `submit` waits for a permit from the connection's semaphore, which
  allows 64 requests in flight by default. It applies the defaults for language and
  aliases, builds the `eval` request record, and switches to the `session` processor
  when a session is given. The record is serialised and framed as one length byte
  (`0x10`), the sixteen bytes `application/json` and the UTF-8 body. `submit` then
  registers a fresh FIFO queue under the request id.
- **Inbound.** The receive loop reads `requestId`, `status.code`, `result.data` and
  `status.message` from each decoded response. It appends to the matching queue:
  - one message per chunk of a non-empty data list, or one message carrying the data itself;
  - an end-of-stream sentinel, unless the status is 206;
  - only the sentinel for 204.
- **Response streams.** `fetch_data`, wrapped in `error_handler`:
  - yields the `data` of 200/206 messages;
  - closes the stream on the sentinel;
  - raises `GremlinServerError("<code>: <message>")` on any other status and closes the stream;
  - times out and closes the stream on an empty queue when a timeout is configured;
  - once closed, answers end-of-stream forever.

  A watcher removes the request id and releases the permit once the stream is done.
- **Providers.** Default operation arguments (always an empty dict), and the hashable
  form of an element id. JanusGraph unwraps the `relationId` of a
  `janusgraph:RelationIdentifier`.

The modules mirror that structure:

- `JsonValue`: decoded JSON values, Python truthiness and `dict.get`.
- `Provider`: the provider plugins.
- `Utf8`: `str.encode('utf-8')` and a decoder that inverts it.
- `Decimal`: `str(int)` and a parser that reads it back.
- `Framing`: request records and the binary frame.
- `Dispatch`: response fields and the items they put on a queue.
- `Stream`: the queue and the `Response` class.
- `Driver`: the `Connection` class.

### How the code's form is kept

- Code that updates objects in place is modelled as classes whose methods have
  `modifies` clauses:
  - `Response`, with its done flag and queue;
  - the queue itself;
  - `Connection`, with its request table (`map<string, ResponseQueue>`), its free permits
    and whether its receive task is still running. A ghost counter, `leaked`, counts
    permits that will never come back.
- The receive step is a method with a loop over the data chunks.
- Each method is proved against a pure specification:
  - `Response.FetchData` performs one step of `FetchStep`;
  - `Connection.Receive` appends exactly `QueuedFor(reading, doc, id)` to the queue of
    each id, where `reading` says whether the receive task is still running.
- The properties of a whole response are lemmas about `FetchStep`, `Drain` and
  `DispatchItems`. `Drain` is repeated `fetch_data`. Partial chunks come first, then
  the final frame's chunks, then end-of-stream or the error.
- `Iterate` is what `async for` observes. It stops at the first falsy result of
  `fetch_data`, so a falsy chunk ends the iteration early (`FalsyChunkStopsIteration`).
  When every chunk is truthy, it agrees with `Drain` (`IterateMatchesDrain`).

### Where the model follows the code rather than the documented intent

- A response whose request id has no queue raises `KeyError` at
  `goblin/driver/connection.py:313`. A 407 response evaluates `self._processor`, which
  the connection never defines, at `goblin/driver/connection.py:314-316`. Either error
  ends the receive task and nothing is queued.

  The model does the same: `Receive` answers `UnknownRequest` or `AuthenticationFailure`
  and stops reading. It does not drop the frame and carry on.
- A document with a missing field raises `KeyError` inside the loop and ends the task.
  `Receive` answers `MalformedResponse` for it and stops reading. The model also stops
  reading on a field of an unexpected kind, where the code carries on (see
  `Dispatch.ParseInbound` under "Left out").
- `submit` takes its permit before it serialises the request, with nothing that gives
  the permit back if `json.dumps` raises. A request holding a value JSON cannot
  represent therefore leaks the permit: no queue is registered and no watcher ever
  releases it.

  The model keeps this behaviour: `Submit` answers `SerializationError` and counts the
  permit in the ghost field `leaked`, and `Valid()` is
  `|queues| + permits + leaked == maxInflight`.
  `UnserializableRequestLeaksPermit` shows that on a one-permit connection every later
  submission then waits for good.
- `LateResponseEndsReceiving` shows the consequence of the unknown-id error. A timed-out
  request is removed by its watcher. The server's late answer to it then ends the
  receive task, so answers to every other request in flight are never read, and their
  streams can only time out.
- The falsy-chunk rule of `__anext__` has a similar consequence. A falsy chunk ends an
  `async for` before the sentinel is fetched: the `0` of a count, or the empty list
  queued for empty data. The stream is then never marked done, and its watcher never
  releases the permit. `FalsyChunkStopsIteration` states this.
- `Connection.open` does not pass `max_inflight` on to the constructor. Connections it
  opens therefore always allow 64 requests in flight; the constructor takes the limit
  as a parameter.

## Model

| member | source | states |
|---|---|---|
| JsonValue.Get | goblin/provider.py:26-32 | `d.get(key, None)`: the stored value when the key is present, `None` when it is absent |
| Provider.DefaultOpArgs | goblin/provider.py:8-9 | the table's entry for the processor when there is one, otherwise an empty dict |
| Provider.GetDefaultOpArgs | goblin/provider.py:5-9 | every provider answers an empty (falsy) dict for every processor, since none overrides the empty table |
| Provider.TinkerGraphHashableId | goblin/provider.py:15-17 | TinkerGraph ids are returned unchanged |
| Provider.RelationId | goblin/provider.py:32-35 | the `relationId` of a relation identifier is truthy |
| Provider.JanusGraphHashableId | goblin/provider.py:22-35 | a relation identifier is replaced by its `relationId`; every other value (not a dict, another `@type`, `@value` missing or not a dict, `relationId` falsy) comes back unchanged; a changed result is truthy |
| Provider.JanusGraphIdUnwraps | goblin/provider.py:22-35 | a well-formed relation identifier never maps to itself |
| Provider.JanusGraphIdOfScalarIsStable | goblin/provider.py:22-35 | canonicalising a relation identifier twice gives the same id as once when the `relationId` is not a dict |
| Utf8.EncodeChar | goblin/driver/connection.py:287 | one to four bytes per character, one exactly for ASCII, the rest continuation bytes |
| Utf8.Encode | goblin/driver/connection.py:287 | `message.encode('utf-8')`: at least one byte per character; `DecodeEncode` is its inverse |
| Utf8.EncodeAsciiIs | goblin/driver/connection.py:284 | an ASCII string encodes to the bytes of its character codes |
| Utf8.DecodeEncode | goblin/driver/connection.py:305 | decoding the UTF-8 encoding of any string gives the string back |
| Utf8.EncodeInjective | goblin/driver/connection.py:287 | different strings have different encodings |
| Decimal.DecimalString | goblin/driver/connection.py:47 | `str(code)`: a minus sign exactly for negative numbers, digits otherwise |
| Decimal.DecimalRoundTrip | goblin/driver/connection.py:47 | the decimal text of any integer parses back to it |
| Framing.HeaderSpellsMimeType | goblin/driver/connection.py:282-284 | the literal header is the length (16) and the ASCII bytes of `application/json` |
| Framing.MimeBytesDecode | goblin/driver/connection.py:284 | the literal MIME bytes decode back to `application/json` |
| Framing.SetMessageHeader | goblin/driver/connection.py:280-287 | succeeds exactly for `application/json` (else the unknown-MIME-type error); the frame is the length byte, the MIME bytes and the UTF-8 body |
| Framing.FrameRoundTrip | goblin/driver/connection.py:280-287 | reading a frame back yields `application/json` and exactly the framed message |
| Framing.FrameBodyFollowsHeader | goblin/driver/connection.py:283-287 | every frame starts with the same 17 header bytes, and the body is everything after them |
| Framing.RequestRecord | goblin/driver/connection.py:245-255 | the `eval` record built for a script has an `args` dict (its full shape is `PreparedRecordShape`) |
| Framing.WithSessionUpdates | goblin/driver/connection.py:274-276 | without a truthy session the record is unchanged; with one, `processor` becomes `session`, the session is added to `args`, and every other key keeps its value |
| Framing.PreparedRecordShape | goblin/driver/connection.py:245-276 | the record has keys requestId/op/processor/args, op `eval`; processor `session` exactly when the session is truthy, else empty; args hold gremlin, bindings, language, aliases and the session only when it is truthy |
| Framing.FinalizeMessage | goblin/driver/connection.py:273-278 | a `json.dumps` failure is the serialisation error; otherwise the frame is the JSON header over the serialised record with the session rule applied, split at byte 17 |
| Framing.PrepareMessage | goblin/driver/connection.py:243-257 | fails exactly when the prepared record cannot be serialised; otherwise the frame reads back as `application/json` and the serialised record |
| Dispatch.ParseInbound | goblin/driver/connection.py:308-312 | a document is read exactly when requestId is a string, status has an integer code and a string message, and result.data is a list or null (other keys allowed); the frame carries exactly those values |
| Dispatch.ParseResponseDocument | goblin/driver/connection.py:308-312 | reading a server response built from a frame gives back exactly that frame |
| Dispatch.ParseResponseWithMetadata | goblin/driver/connection.py:308-312 | a response that also carries `status.attributes` and `result.meta` is read as the same frame |
| Dispatch.DataMessages | goblin/driver/connection.py:320-326 | one message per chunk of a non-empty list, in order, else one message with the data itself; all carry the frame's code and message |
| Dispatch.DispatchItems | goblin/driver/connection.py:314-328 | nothing for 407, only a sentinel for 204, otherwise the messages followed by a sentinel exactly when the status is not 206 |
| Stream.ServerErrorText | goblin/driver/connection.py:46-47 | the error text `"<code>: <message>"` gives back both the code and the message |
| Stream.FetchStep | goblin/driver/connection.py:86-100 | one fetch: end-of-stream when closed or on the sentinel; a timeout (or waiting, with no timeout set) on an empty queue; the data of a 200/206 message with the rest queued; the error text for any other code; every outcome but data or waiting closes the stream |
| Stream.Drain | goblin/driver/connection.py:86-100 | repeated `fetch_data` until a non-payload outcome: every outcome but the last is a payload, the last is not |
| Stream.Iterate | goblin/driver/connection.py:73-78 | `async for`: every outcome but the last is a truthy payload, and the last (a falsy payload, end-of-stream, an error, a timeout or waiting) is not |
| Stream.IterateMatchesDrain | goblin/driver/connection.py:73-78 | when every queued success chunk is truthy, iteration observes exactly what `Drain` does |
| Stream.FalsyChunkStopsIteration | goblin/driver/connection.py:73-78 | a falsy chunk ends the iteration before the sentinel is fetched, leaving the stream open and not done |
| Stream.DrainPayloadStep | goblin/driver/connection.py:98-100 | a success message at the head of the queue is delivered and fetching continues on the rest |
| Stream.DrainSuccessMessages | goblin/driver/connection.py:86-100 | queued success messages are delivered one by one, in order, before anything behind them |
| Stream.ResponseItems | goblin/driver/connection.py:313-328 | what successive receive turns queue for one request: no sentinel while all frames are 206, and a sentinel last when the last frame is 200, 204 or an error |
| Stream.DrainPartialFrames | goblin/driver/connection.py:319-328 | 206 frames queue their chunks without a sentinel, so fetching continues past them |
| Stream.DrainClosingFrame | goblin/driver/connection.py:317-328 | a 200 frame yields its chunks and then end-of-stream; a 204 frame yields end-of-stream at once |
| Stream.SuccessfulResponseDrains | goblin/driver/connection.py:317-328 | partial frames closed by a 200 or 204 frame are delivered as all chunks in arrival order, then end-of-stream; later items are never read |
| Stream.FailedResponseDrains | goblin/driver/connection.py:39-50 | partial frames closed by an error frame deliver their chunks, then the server error with the code and message; the error frame's data is never delivered |
| Stream.IncompleteResponseDrains | goblin/driver/connection.py:91-97 | a response with only partial frames so far delivers its chunks and then times out, or keeps waiting without a timeout |
| Stream.ResponseItemsAppend | goblin/driver/connection.py:313-328 | the items of frames received one after another are the concatenation of each frame's items |
| Stream.FramePayloadsAppend | goblin/driver/connection.py:320-326 | the payloads of a sequence of frames are the concatenation of each frame's payloads |
| Stream.ResponseQueue.constructor | goblin/driver/connection.py:227 | a new queue is empty |
| Stream.ResponseQueue.PutNowait | goblin/driver/connection.py:318 | `put_nowait` appends the item at the back and changes nothing else |
| Stream.Response.constructor | goblin/driver/connection.py:55-59 | a new response is open on the given queue |
| Stream.Response.State | goblin/driver/connection.py:89 | the stream is closed exactly when the done flag is set |
| Stream.Response.Close | goblin/driver/connection.py:80-84 | sets the done flag and drops the queue |
| Stream.Response.FetchData | goblin/driver/connection.py:86-100 | the outcome and the new state are exactly one `FetchStep` of the old state; a done response is left untouched |
| Driver.EffectiveLanguage | goblin/driver/connection.py:219 | `lang or self._lang`: a truthy language is kept, a falsy one is replaced by the connection's |
| Driver.DefaultAliases | goblin/driver/connection.py:217-218 | aliases default to `{}` exactly when they are None, and are kept otherwise |
| Driver.SubmittedRecordDefaults | goblin/driver/connection.py:216-226 | the submitted record's language and aliases are the caller's, or the defaults in exactly those cases |
| Driver.Connection.constructor | goblin/driver/connection.py:133-148 | no request is in flight, all `max_inflight` permits are free, none leaked, the receive task is running |
| Driver.Connection.Submit | goblin/driver/connection.py:216-234 | with no permit free: nothing changes; if the record cannot be serialised: one permit is taken and leaked, nothing is registered; otherwise one permit is taken, a fresh empty queue is registered under the new id alone, the returned open response reads from it, and the frame sent reads back as the submitted record |
| Driver.Connection.TerminateResponse | goblin/driver/connection.py:289-292 | waits while the stream is not done; then removes exactly that id and returns one permit, or fails with `KeyError` when the id is gone |
| Driver.Connection.Receive | goblin/driver/connection.py:308-328 | appends the frame's dispatch items to the queue of its id and nothing to any other queue; a malformed document, an unknown id or a 407 ends the receive task; the table and permits are unchanged |
| Driver.QueuedFor | goblin/driver/connection.py:313 | one receive turn queues items only for the document's own request id, and those are the frame's dispatch items |
| Driver.QueuedForResponse | goblin/driver/connection.py:313 | a response document is queued for its own request id and for no other |
| Driver.TimeoutReleasesPermit | goblin/driver/connection.py:289-292 | with one permit, a second submission waits until the first stream times out and its watcher runs, then it goes through |
| Driver.UnserializableRequestLeaksPermit | goblin/driver/connection.py:216-221 | with one permit, a request that cannot be serialised raises and keeps the permit, so the next submission waits |
| Driver.TwoInFlight | goblin/driver/connection.py:227-228 | two submissions register two distinct, empty queues under their own ids |
| Driver.FirstTimesOut | goblin/driver/connection.py:289-292 | after one of two requests times out and its watcher runs, only the other id remains in the table |
| Driver.LateResponseEndsReceiving | goblin/driver/connection.py:313 | a late answer to a removed request ends the receive task; the other request's answer is then not read and its stream times out |
| Driver.SubmitAndReceive | goblin/driver/connection.py:308-328 | after one receive step, a new request's stream holds exactly the dispatch items of its response |
| Driver.SingleChunkResponse | goblin/driver/connection.py:317-328 | a single-chunk 200 response is fetched as its chunk, then end-of-stream, and end-of-stream again |
| Driver.ErrorResponse | goblin/driver/connection.py:44-47 | an error response raises once with `"<code>: <message>"`, then every fetch answers end-of-stream |

## Left out

- The websocket itself is not modelled: sending and receiving, reconnecting when it is
  closed (`goblin/driver/connection.py:229-230`), and the close, error, closed, binary
  and text message kinds (`goblin/driver/connection.py:296-307`). `Submit` returns the
  frame it would send, and `Receive` takes the decoded document.
- Byte decoding of inbound messages is not modelled as part of `Receive`. `Utf8.Decode`
  is the decoder, and `FrameRoundTrip` relates it to the outbound frame.
- The asyncio event loop and task scheduling are not modelled. A call that would
  suspend is modelled as its outcome:
  - a submission with no free permit answers `Blocked` and changes nothing;
  - a fetch on an empty queue without a timeout answers `Pending`;
  - a watcher whose stream is not done answers `Waiting`.
- The watcher is invoked explicitly, not scheduled as a task.
- `json.dumps` is not modelled. It is a partial function parameter, and `None` stands for
  the `TypeError` it raises. `json.loads` is not modelled either: `Receive` takes the
  decoded value.
- `uuid.uuid4` is a parameter, and `Submit` requires the id to be new.
- Timeout durations are not modelled, only whether a timeout is configured.
- `Connection.open`, `Connection.close`, `closed`, `url`, `__aenter__`/`__aexit__`
  and `AbstractConnection` are not modelled: they only manage the socket and the client
  session.
- `_authenticate` (`goblin/driver/connection.py:259-271`) is never reached: the 407
  branch fails before calling it.
- `Response.__aiter__`/`__anext__` are not modelled as methods. `Stream.Iterate` gives
  the sequence an `async for` observes; `Stream.Drain` is repeated `fetch_data`.
- `Dispatch.ParseInbound`: treats these as malformed:
  - `result.data` that is neither a list nor null, such as a dict, a string, `false`
    or `0`;
  - a status code that is not an integer;
  - a message that is not a string.

  For these, `Receive` ends the receive task, where the code carries on without raising.
  The code iterates over a dict or string `data` and queues a falsy scalar as it is. It
  queues any code and message, and a non-integer code such as `"500"` is raised only at
  fetch time, as `"500: <message>"`. JSON numbers are modelled as integers only, so
  floats are left out.
- Logging is not modelled; it has no effect on behaviour.
- `goblin/element.py` and `setup.py` are not part of this model.
