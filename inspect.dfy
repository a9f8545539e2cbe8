/** `request_response_inspecter`, the middleware that drains the request body,
    logs it, forwards a rebuilt request to the next handler and, when debug
    logging is on, drains, logs and rebuilds the response as well. */
module Inspect {
  import opened Wrappers
  import opened Bytes
  import opened Http
  import opened Utf8
  import opened Body

  datatype Version = Http09 | Http10 | Http11 | Http2 | Http3

  /** A header map as its name/value pairs in order. */
  type Headers = seq<(string, string)>

  /** `request::Parts`: everything of a request but its body. */
  datatype RequestHead = RequestHead(verb: string, uri: string, version: Version, headers: Headers)

  /** `response::Parts`: everything of a response but its body. */
  datatype ResponseHead = ResponseHead(status: StatusCode, version: Version, headers: Headers)

  /** A request or response as the handler sees it: its head and all its body
      will yield. */
  datatype RequestValue = RequestValue(head: RequestHead, body: BodyValue)
  datatype ResponseValue = ResponseValue(head: ResponseHead, body: BodyValue)

  /** A request or response in flight, whose body is a stream being read. */
  datatype Request = Request(head: RequestHead, body: BodyStream)
  datatype Response = Response(head: ResponseHead, body: BodyStream)

  /** The error half of the middleware's result, `(StatusCode, String)`. */
  datatype Rejection = Rejection(status: StatusCode, message: string)

  /** The rest of the chain (`Next`): whatever handler the router picks, seen
      from the middleware as a function from request to response. */
  type Next = RequestValue -> ResponseValue

  datatype Level = Debug | Info

  /** What the middleware leaves behind, in order: its log records and the run
      of the next handler. */
  datatype Event =
    | BodyRecord(level: Level, direction: string, text: Bytes)
    | RequestLine(verb: string, uri: string, version: Version)
    | HandlerRun(request: RequestValue)

  /** The log the `tracing` macros write to, as the list of what was emitted. */
  class Trace {
    var events: seq<Event>

    constructor ()
      ensures events == []
    {
      events := [];
    }

    method Emit(e: Event)
      modifies this
      ensures events == old(events) + [e]
    {
      events := events + [e];
    }
  }

  /** The requests the next handler was run on, in order. */
  function Runs(events: seq<Event>): seq<RequestValue>
  {
    if events == [] then []
    else
      var last := events[|events| - 1];
      Runs(events[..|events| - 1]) + if last.HandlerRun? then [last.request] else []
  }

  lemma {:induction false} RunsAppend(a: seq<Event>, b: seq<Event>)
    ensures Runs(a + b) == Runs(a) + Runs(b)
    decreases |b|
  {
    if b == [] {
      assert a + b == a;
    } else {
      assert (a + b)[..|a + b| - 1] == a + b[..|b| - 1];
      RunsAppend(a, b[..|b| - 1]);
    }
  }

  /** The rejection a failed drain answers with: 400 and
      "failed to read {direction} body: {err}". */
  function ReadFailure(direction: string, error: string): Rejection
  {
    Rejection(BAD_REQUEST, "failed to read " + direction + " body: " + error)
  }

  /** One drain of a body: the bytes or the rejection, and the records emitted. */
  datatype Drained = Drained(result: Result<Bytes, Rejection>, events: seq<Event>)

  /** `request_inspect_print` (logged at info, when `logged`) and `response_print`
      (always logged, at debug) on a body that will yield `body`. The drained
      bytes are exactly what the stream held, a failed drain logs nothing, and at
      most one record is emitted: a text body, logged at `level`, unchanged. */
  function Drain(direction: string, logged: bool, level: Level, body: BodyValue): (d: Drained)
    ensures d.result.Ok? <==> body.failure.None?
    ensures d.result.Ok? ==> d.result.value == Concat(body.chunks)
    ensures d.result.Err? ==> d.result.error == ReadFailure(direction, body.failure.value) && d.events == []
    ensures |d.events| <= 1
    ensures forall e <- d.events :: logged && e == BodyRecord(level, direction, Concat(body.chunks)) && ValidUtf8(e.text)
  {
    match Collected(body)
    case Err(error) => Drained(Err(ReadFailure(direction, error)), [])
    case Ok(bytes) => Drained(Ok(bytes), if logged && ValidUtf8(bytes) then [BodyRecord(level, direction, bytes)] else [])
  }

  /** The request handed to the next handler: the original head over a full body
      of the drained bytes. */
  function Forwarded(head: RequestHead, bytes: Bytes): RequestValue
  {
    RequestValue(head, FromBytes(bytes))
  }

  /** The result of the middleware and what it emitted. */
  datatype Outcome = Outcome(result: Result<ResponseValue, Rejection>, events: seq<Event>)

  /** `log_enabled && tracing::enabled!(Level::DEBUG)`. */
  predicate GateOpen(logEnabled: bool, debugEnabled: bool)
  {
    logEnabled && debugEnabled
  }

  /** The part of `request_response_inspecter` after the handler has run: with
      the gate open the response body is drained and rebuilt, with it closed the
      response is passed on as it is. */
  function ResponseStage(res: ResponseValue, gateOpen: bool): (o: Outcome)
    ensures o.result.Err? <==> gateOpen && res.body.failure.Some?
    ensures o.result.Err? ==> o.result.error.status == BAD_REQUEST
    ensures o.result.Ok? ==> o.result.value.head == res.head && Collected(o.result.value.body) == Collected(res.body)
    ensures !gateOpen ==> o.events == []
  {
    if !gateOpen then Outcome(Ok(res), [])
    else
      var out := Drain("response", true, Debug, res.body);
      if out.result.Err? then Outcome(Err(out.result.error), out.events)
      else Outcome(Ok(ResponseValue(res.head, FromBytes(out.result.value))), out.events)
  }

  /** `request_response_inspecter` on a request that will yield `req`, with the
      next handler `next`: the result and everything emitted, in order. The
      lemmas below state what it guarantees. */
  function Inspection(req: RequestValue, next: Next, logEnabled: bool, debugEnabled: bool): (o: Outcome)
    ensures o.result.Err? <==> || req.body.failure.Some?
                               || (GateOpen(logEnabled, debugEnabled) && next(Forwarded(req.head, Concat(req.body.chunks))).body.failure.Some?)
    ensures o.result.Err? ==> o.result.error.status == BAD_REQUEST
  {
    var drained := Drain("request", logEnabled, Info, req.body);
    if drained.result.Err? then
      Outcome(Err(drained.result.error), drained.events)
    else
      var forwarded := Forwarded(req.head, drained.result.value);
      var post := ResponseStage(next(forwarded), GateOpen(logEnabled, debugEnabled));
      Outcome(post.result, drained.events + [RequestLine(req.head.verb, req.head.uri, req.head.version), HandlerRun(forwarded)] + post.events)
  }

  /** The text of a drain failure: "failed to read {direction} body: {err}". */
  lemma ReadFailureText(error: string)
    ensures ReadFailure("request", error) == Rejection(BAD_REQUEST, "failed to read request body: " + error)
    ensures ReadFailure("response", error) == Rejection(BAD_REQUEST, "failed to read response body: " + error)
  {
    assert "failed to read " + "request" + " body: " == "failed to read request body: ";
    assert "failed to read " + "response" + " body: " == "failed to read response body: ";
  }

  /** A request body that fails to drain ends the middleware with 400 "failed to
      read request body: {err}"; nothing is logged and the handler never runs. */
  lemma RequestDrainFailure(req: RequestValue, next: Next, logEnabled: bool, debugEnabled: bool)
    requires req.body.failure.Some?
    ensures Inspection(req, next, logEnabled, debugEnabled) ==
      Outcome(Err(Rejection(BAD_REQUEST, "failed to read request body: " + req.body.failure.value)), [])
  {
    ReadFailureText(req.body.failure.value);
  }

  /** With the gate closed the handler's response is returned as it is: its
      body is not drained, whatever it holds. */
  lemma GateClosedPassesThrough(req: RequestValue, next: Next, logEnabled: bool, debugEnabled: bool)
    requires req.body.failure.None? && !GateOpen(logEnabled, debugEnabled)
    ensures Inspection(req, next, logEnabled, debugEnabled).result == Ok(next(Forwarded(req.head, Concat(req.body.chunks))))
  {
  }

  /** With the gate open the response body is drained: a failure gives 400
      "failed to read response body: {err}", a success the handler's head over a
      body of the same bytes. */
  lemma GateOpenDrainsResponse(req: RequestValue, next: Next, logEnabled: bool, debugEnabled: bool)
    requires req.body.failure.None? && GateOpen(logEnabled, debugEnabled)
    ensures var res := next(Forwarded(req.head, Concat(req.body.chunks)));
      var o := Inspection(req, next, logEnabled, debugEnabled);
      && (o.result.Ok? <==> res.body.failure.None?)
      && (o.result.Ok? ==> o.result.value.head == res.head && Collected(o.result.value.body) == Collected(res.body))
      && (o.result.Err? ==> o.result.error == Rejection(BAD_REQUEST, "failed to read response body: " + res.body.failure.value))
  {
    var res := next(Forwarded(req.head, Concat(req.body.chunks)));
    if res.body.failure.Some? {
      ReadFailureText(res.body.failure.value);
    }
  }

  /** A drain never runs the handler. */
  lemma DrainRunsNothing(direction: string, logged: bool, level: Level, body: BodyValue)
    ensures Runs(Drain(direction, logged, level, body).events) == []
  {
    var events := Drain(direction, logged, level, body).events;
    if events != [] {
      assert events[..0] == [];
    }
  }

  /** The events of a successful request drain followed by the dispatch. */
  lemma RunsOfDispatch(pre: seq<Event>, line: Event, forwarded: RequestValue, post: seq<Event>)
    requires Runs(pre) == [] && Runs(post) == [] && !line.HandlerRun?
    ensures Runs(pre + [line, HandlerRun(forwarded)] + post) == [forwarded]
  {
    var withLine := pre + [line];
    var withRun := withLine + [HandlerRun(forwarded)];
    assert withLine[..|withLine| - 1] == pre;
    assert Runs(withLine) == [];
    assert withRun[..|withRun| - 1] == withLine;
    assert Runs(withRun) == [forwarded];
    assert pre + [line, HandlerRun(forwarded)] + post == withRun + post;
    RunsAppend(withRun, post);
  }

  /** The handler runs exactly once when the request body drains, on the
      original head and a body that yields the very bytes the request held, and
      never when the drain fails. */
  lemma HandlerRunsOnceOnDrainedBytes(req: RequestValue, next: Next, logEnabled: bool, debugEnabled: bool)
    ensures var o := Inspection(req, next, logEnabled, debugEnabled);
      && Runs(o.events) == (if req.body.failure.None? then [Forwarded(req.head, Concat(req.body.chunks))] else [])
      && forall r <- Runs(o.events) :: r.head == req.head && Collected(r.body) == Collected(req.body)
  {
    var o := Inspection(req, next, logEnabled, debugEnabled);
    if req.body.failure.None? {
      var drained := Drain("request", logEnabled, Info, req.body);
      var forwarded := Forwarded(req.head, Concat(req.body.chunks));
      var line := RequestLine(req.head.verb, req.head.uri, req.head.version);
      DrainRunsNothing("request", logEnabled, Info, req.body);
      var post := if GateOpen(logEnabled, debugEnabled) then Drain("response", true, Debug, next(forwarded).body).events else [];
      if GateOpen(logEnabled, debugEnabled) {
        DrainRunsNothing("response", true, Debug, next(forwarded).body);
      }
      RunsOfDispatch(drained.events, line, forwarded, post);
      assert o.events == drained.events + [line, HandlerRun(forwarded)] + post;
    }
  }

  /** The request line is logged, always and at info, once the request body has
      drained, and never when the drain fails: its `info!` follows the `?`. */
  lemma RequestLineOnlyAfterDrain(req: RequestValue, next: Next, logEnabled: bool, debugEnabled: bool)
    ensures RequestLine(req.head.verb, req.head.uri, req.head.version) in Inspection(req, next, logEnabled, debugEnabled).events
      <==> req.body.failure.None?
  {
    var o := Inspection(req, next, logEnabled, debugEnabled);
    var line := RequestLine(req.head.verb, req.head.uri, req.head.version);
    if req.body.failure.None? {
      var drained := Drain("request", logEnabled, Info, req.body);
      assert o.events[|drained.events|] == line;
    }
  }

  /** Only text is logged; the request body only when logging is enabled, at
      info, exactly as drained; the response body only through the open gate,
      at debug, exactly as the handler produced it. */
  lemma RecordsAreGated(req: RequestValue, next: Next, logEnabled: bool, debugEnabled: bool)
    ensures forall e <- Inspection(req, next, logEnabled, debugEnabled).events :: e.BodyRecord? ==>
      && ValidUtf8(e.text)
      && logEnabled
      && (e.level == Info ==> e.direction == "request" && e.text == Concat(req.body.chunks))
      && (e.level == Debug ==> && e.direction == "response" && debugEnabled && req.body.failure.None?
                               && e.text == Concat(next(Forwarded(req.head, Concat(req.body.chunks))).body.chunks))
  {
  }

  /** A drained text body is logged once, unchanged. */
  lemma DrainLogsText(direction: string, level: Level, body: BodyValue)
    requires body.failure.None? && ValidUtf8(Concat(body.chunks))
    ensures Drain(direction, true, level, body).events == [BodyRecord(level, direction, Concat(body.chunks))]
  {
  }

  /** A body whose every chunk is text is logged whole: the test on the collected
      buffer accepts what a test chunk by chunk would. */
  lemma TextChunksAreLogged(direction: string, level: Level, body: BodyValue)
    requires body.failure.None? && forall i :: 0 <= i < |body.chunks| ==> ValidUtf8(body.chunks[i])
    ensures Drain(direction, true, level, body).events == [BodyRecord(level, direction, Concat(body.chunks))]
  {
    ConcatOfValidChunks(body.chunks);
  }

  /** The converse does not hold, and the model follows the buffer: U+00E9 split
      over two chunks, neither of them text, is still logged, whole. */
  lemma SplitScalarIsLogged()
    ensures Drain("request", true, Info, BodyValue([[0xC3], [0xA9]], None)).events == [BodyRecord(Info, "request", [0xC3, 0xA9])]
  {
    ChunkBoundaryMaySplitScalar();
  }

  /** With logging on, debug enabled and both bodies text, the middleware emits,
      in this order: the request body record, the request line, the handler run
      and the response body record; each body is logged exactly once. */
  lemma RecordsInOrder(req: RequestValue, next: Next)
    requires req.body.failure.None? && ValidUtf8(Concat(req.body.chunks))
    requires next(Forwarded(req.head, Concat(req.body.chunks))).body.failure.None?
    requires ValidUtf8(Concat(next(Forwarded(req.head, Concat(req.body.chunks))).body.chunks))
    ensures var bytes := Concat(req.body.chunks);
      var res := next(Forwarded(req.head, bytes));
      Inspection(req, next, true, true).events == [
        BodyRecord(Info, "request", bytes),
        RequestLine(req.head.verb, req.head.uri, req.head.version),
        HandlerRun(Forwarded(req.head, bytes)),
        BodyRecord(Debug, "response", Concat(res.body.chunks))]
  {
    var bytes := Concat(req.body.chunks);
    var res := next(Forwarded(req.head, bytes));
    var first := BodyRecord(Info, "request", bytes);
    var line := RequestLine(req.head.verb, req.head.uri, req.head.version);
    var run := HandlerRun(Forwarded(req.head, bytes));
    var last := BodyRecord(Debug, "response", Concat(res.body.chunks));
    DrainLogsText("request", Info, req.body);
    DrainLogsText("response", Debug, res.body);
    assert ResponseStage(res, true).events == [last];
    assert Inspection(req, next, true, true).events == Drain("request", true, Info, req.body).events + [line, run] + [last];
    assert [first] + [line, run] + [last] == [first, line, run, last];
  }

  /** Logging never changes what the client receives: whatever the two settings,
      two runs that both succeed return the same head and the same body bytes. */
  lemma LoggingKeepsResponse(req: RequestValue, next: Next, log1: bool, debug1: bool, log2: bool, debug2: bool)
    requires Inspection(req, next, log1, debug1).result.Ok?
    requires Inspection(req, next, log2, debug2).result.Ok?
    ensures var r1, r2 := Inspection(req, next, log1, debug1).result.value, Inspection(req, next, log2, debug2).result.value;
      r1.head == r2.head && Collected(r1.body) == Collected(r2.body)
  {
    if GateOpen(log1, debug1) {
      GateOpenDrainsResponse(req, next, log1, debug1);
    }
    if GateOpen(log2, debug2) {
      GateOpenDrainsResponse(req, next, log2, debug2);
    }
  }

  /** `request_inspect_print`: drains the whole body; on success logs it at info
      when logging is enabled and it is text; hands back the bytes unchanged. */
  method RequestInspectPrint(direction: string, logEnabled: bool, body: BodyStream, trace: Trace)
    returns (r: Result<Bytes, Rejection>)
    requires body.Valid()
    modifies body, trace
    ensures body.Valid() && body.pos == |body.content.chunks| && body.polls > old(body.polls)
    ensures var d := Drain(direction, logEnabled, Info, old(body.Rest()));
      r == d.result && trace.events == old(trace.events) + d.events
  {
    var collected := body.Collect();
    if collected.Err? {
      return Err(ReadFailure(direction, collected.error));
    }
    var bytes := collected.value;
    if ValidUtf8(bytes) {
      if logEnabled {
        trace.Emit(BodyRecord(Info, direction, bytes));
      }
    }
    return Ok(bytes);
  }

  /** `response_print`: drains the whole body; on success logs it at debug when
      it is text; hands back the bytes unchanged. */
  method ResponsePrint(direction: string, body: BodyStream, trace: Trace)
    returns (r: Result<Bytes, Rejection>)
    requires body.Valid()
    modifies body, trace
    ensures body.Valid() && body.pos == |body.content.chunks| && body.polls > old(body.polls)
    ensures var d := Drain(direction, true, Debug, old(body.Rest()));
      r == d.result && trace.events == old(trace.events) + d.events
  {
    var collected := body.Collect();
    if collected.Err? {
      return Err(ReadFailure(direction, collected.error));
    }
    var bytes := collected.value;
    if ValidUtf8(bytes) {
      trace.Emit(BodyRecord(Debug, direction, bytes));
    }
    return Ok(bytes);
  }

  /** `next.run(req).await`: runs the rest of the chain on what the request
      holds; the response comes back with a body nobody has read yet. */
  method RunNext(next: Next, req: Request, trace: Trace) returns (res: Response)
    requires req.body.Valid()
    modifies trace
    ensures fresh(res.body) && res.body.Valid() && res.body.pos == 0 && res.body.polls == 0
    ensures var seen := RequestValue(req.head, req.body.Rest());
      && ResponseValue(res.head, res.body.content) == next(seen)
      && trace.events == old(trace.events) + [HandlerRun(seen)]
  {
    var seen := RequestValue(req.head, req.body.Rest());
    trace.Emit(HandlerRun(seen));
    var produced := next(seen);
    var stream := new BodyStream(produced.body);
    res := Response(produced.head, stream);
  }

  /** Lines 127-131 of `request_response_inspecter`: through the open gate the
      response body is drained, logged and rebuilt; through the closed gate the
      response is handed back untouched, its body not read at all. */
  method InspectResponse(res: Response, gateOpen: bool, trace: Trace) returns (r: Result<Response, Rejection>)
    requires res.body.Valid()
    modifies res.body, trace
    ensures var o := ResponseStage(old(ResponseValue(res.head, res.body.Rest())), gateOpen);
      && trace.events == old(trace.events) + o.events
      && (r.Err? <==> o.result.Err?)
      && (r.Err? ==> r.error == o.result.error)
      && (r.Ok? ==> r.value.body.Valid() && ResponseValue(r.value.head, r.value.body.Rest()) == o.result.value)
    ensures gateOpen && r.Ok? ==> fresh(r.value.body) && r.value.body.pos == 0 && r.value.body.polls == 0
    ensures !gateOpen ==> r == Ok(res) && res.body.pos == old(res.body.pos) && res.body.polls == old(res.body.polls)
  {
    if !gateOpen {
      return Ok(res);
    }
    var parts, body := res.head, res.body;
    var bytes :- ResponsePrint("response", body, trace);
    var rebuilt := new BodyStream(FromBytes(bytes));
    return Ok(Response(parts, rebuilt));
  }

  /** `request_response_inspecter`. The request body is always drained to its
      end; the result and the records are those of `Inspection` on what the
      request held. A response returned through the closed gate is the
      handler's own, still unread; through the open gate it is rebuilt over the
      drained bytes. */
  method RequestResponseInspecter(req: Request, next: Next, logEnabled: bool, debugEnabled: bool, trace: Trace)
    returns (r: Result<Response, Rejection>)
    requires req.body.Valid()
    modifies req.body, trace
    ensures req.body.Valid() && req.body.pos == |req.body.content.chunks| && req.body.polls > old(req.body.polls)
    ensures var o := Inspection(old(RequestValue(req.head, req.body.Rest())), next, logEnabled, debugEnabled);
      && trace.events == old(trace.events) + o.events
      && (r.Err? <==> o.result.Err?)
      && (r.Err? ==> r.error == o.result.error)
      && (r.Ok? ==> && fresh(r.value.body) && r.value.body.Valid() && r.value.body.pos == 0 && r.value.body.polls == 0
                    && ResponseValue(r.value.head, r.value.body.content) == o.result.value)
  {
    ghost var seen := RequestValue(req.head, req.body.Rest());
    ghost var before := trace.events;
    ghost var drained := Drain("request", logEnabled, Info, seen.body);
    var parts, body := req.head, req.body;
    var bytes :- RequestInspectPrint("request", logEnabled, body, trace);
    assert trace.events == before + drained.events;
    var line := RequestLine(parts.verb, parts.uri, parts.version);
    trace.Emit(line);
    var forwarded := new BodyStream(FromBytes(bytes));
    var res := RunNext(next, Request(parts, forwarded), trace);
    ghost var run := HandlerRun(Forwarded(parts, bytes));
    assert trace.events == before + drained.events + [line] + [run];
    ghost var post := ResponseStage(next(Forwarded(parts, bytes)), GateOpen(logEnabled, debugEnabled));
    r := InspectResponse(res, logEnabled && debugEnabled, trace);
    assert trace.events == before + drained.events + [line] + [run] + post.events;
    AppendTail(before, drained.events, line, run, post.events);
  }

  lemma AppendTail<T>(before: seq<T>, a: seq<T>, x: T, y: T, post: seq<T>)
    ensures before + a + [x] + [y] + post == before + (a + [x, y] + post)
  {
    assert [x] + [y] == [x, y];
  }
}
