/** `middleware.HTTPTelemetryMiddleware`: the handler it returns opens a span
    of the "music-app" tracer named after the operation, hands the request on
    to the wrapped handler under that span, then records the request duration
    and the process memory reading, and ends the span last.

    The clock (`time.Since(start).Seconds()`), `runtime.ReadMemStats` and
    `os.Getpid` are parameters: `elapsed`, `memSys` and `pid`. The request's own
    context is whatever reached the inner handler (in the service, the one
    `otelhttp` put its server span into). */
module Middleware {
  import opened Base
  import opened Http
  import opened Telemetry
  import Strconv
  import OTel

  const RequestTracerName: string := "music-app"

  /** The handler `HTTPTelemetryMiddleware(next, operationName)` returns. */
  datatype TelemetryHandler = TelemetryHandler(next: Handler, operationName: string)

  function HTTPTelemetryMiddleware(next: Handler, operationName: string): (h: TelemetryHandler)
    ensures h.next == next && h.operationName == operationName
  {
    TelemetryHandler(next, operationName)
  }

  /** The span attributes: method, the URL as a string, and the URL path as route. */
  function RequestAttributes(r: Request): seq<Attr> {
    [Attr("http.method", StringAttr(r.httpMethod)), Attr("http.url", StringAttr(r.url.text)),
     Attr("http.route", StringAttr(r.url.path))]
  }

  /** The request-duration measurement, when `HTTPRequestDuration` is set. */
  function DurationEvents(instrument: Option<Instrument>, r: Request, elapsed: Duration): (e: seq<Event>)
    ensures |e| == (if instrument.Some? then 1 else 0)
  {
    if instrument.Some? then
      [Measurement(instrument.value, r.ctx, Seconds(elapsed),
                   [Attr("method", StringAttr(r.httpMethod)), Attr("route", StringAttr(r.url.path))])]
    else []
  }

  /** `int64(m.Sys)`: the gauge value, wrapped into the signed 64-bit range. */
  function RSSValue(memSys: Uint64): (v: Value)
    ensures v.Int64Value? && InInt64(v.n)
    ensures memSys <= Int64Max ==> v.n == memSys
  {
    Int64Value(ToInt64(memSys))
  }

  /** The memory gauge reading of `recordMemoryMetrics`, when `ProcessRSSBytes`
      is set: `m.Sys` under the `process.pid` label. */
  function MemoryEvents(instrument: Option<Instrument>, ctx: Context, memSys: Uint64, pid: nat): (e: seq<Event>)
    ensures |e| == (if instrument.Some? then 1 else 0)
  {
    if instrument.Some? then
      [Measurement(instrument.value, ctx, RSSValue(memSys), [Attr("process.pid", StringAttr(Strconv.Itoa(pid)))])]
    else []
  }

  /** Everything one request adds to the telemetry log, in order: the span
      starts under the request's context and gets its three attributes, the
      wrapped handler runs once on the request carrying the span's context,
      the duration and the memory reading are recorded under the request's own
      context, and the deferred `span.End()` comes last. */
  function RequestEvents(h: TelemetryHandler, span: SpanId, r: Request, durationInstrument: Option<Instrument>,
                         elapsed: Duration, rssInstrument: Option<Instrument>, memSys: Uint64, pid: nat): seq<Event>
  {
    RequestOpening(h, span, r) + RequestClosing(span, r, durationInstrument, elapsed, rssInstrument, memSys, pid)
  }

  /** The events up to and including the call of the wrapped handler. */
  function RequestOpening(h: TelemetryHandler, span: SpanId, r: Request): seq<Event> {
    [SpanStart(RequestTracerName, span, h.operationName, r.ctx)]
    + [SpanAttributes(span, RequestAttributes(r))]
    + [Invoke(ServeHTTPCall(h.next, r.WithContext(Context(Some(span)))))]
  }

  /** The events after the wrapped handler returned. */
  function RequestClosing(span: SpanId, r: Request, durationInstrument: Option<Instrument>, elapsed: Duration,
                          rssInstrument: Option<Instrument>, memSys: Uint64, pid: nat): seq<Event>
  {
    DurationEvents(durationInstrument, r, elapsed)
    + MemoryEvents(rssInstrument, r.ctx, memSys, pid)
    + [SpanEnd(span)]
  }

  /** One request opens exactly one new span and ends it: the set of open spans
      is the same before and after. */
  lemma RequestBalanced(s: Spans, h: TelemetryHandler, span: SpanId, r: Request,
                        durationInstrument: Option<Instrument>, elapsed: Duration,
                        rssInstrument: Option<Instrument>, memSys: Uint64, pid: nat)
    requires s.open <= s.seen && span !in s.seen
    ensures Run(s, RequestEvents(h, span, r, durationInstrument, elapsed, rssInstrument, memSys, pid))
            == Some(Spans(s.open, s.seen + {span}))
  {
    var started := Spans(s.open + {span}, s.seen + {span});
    var a := [SpanStart(RequestTracerName, span, h.operationName, r.ctx)];
    var b := [SpanAttributes(span, RequestAttributes(r))];
    var c := [Invoke(ServeHTTPCall(h.next, r.WithContext(Context(Some(span)))))];
    var d := DurationEvents(durationInstrument, r, elapsed);
    var m := MemoryEvents(rssInstrument, r.ctx, memSys, pid);
    var z := [SpanEnd(span)];
    RunOne(s, a[0]);
    RunOne(started, b[0]);
    RunOne(started, c[0]);
    if d != [] { RunOne(started, d[0]); }
    if m != [] { RunOne(started, m[0]); }
    RunOne(started, z[0]);
    assert (s.open + {span}) - {span} == s.open;
    RunAppend(s, a, b);
    RunAppend(s, a + b, c);
    RunAppend(s, a + b + c, d + m + z);
    RunAppend(started, d, m);
    RunAppend(started, d + m, z);
  }

  /** The wrapped handler is called exactly once, on the same request except
      that its context now carries the new span. */
  lemma RequestInvokesHandlerOnce(h: TelemetryHandler, span: SpanId, r: Request,
                                  durationInstrument: Option<Instrument>, elapsed: Duration,
                                  rssInstrument: Option<Instrument>, memSys: Uint64, pid: nat)
    ensures var calls := Select(RequestEvents(h, span, r, durationInstrument, elapsed, rssInstrument, memSys, pid),
                                IsInvoke);
            && |calls| == 1 && calls[0].Invoke?
            && calls[0].call.ServeHTTPCall? && calls[0].call.handler == h.next
            && calls[0].call.r.ctx == Context(Some(span))
            && calls[0].call.r.httpMethod == r.httpMethod && calls[0].call.r.url == r.url
  {
    var a := [SpanStart(RequestTracerName, span, h.operationName, r.ctx)];
    var b := [SpanAttributes(span, RequestAttributes(r))];
    var c := [Invoke(ServeHTTPCall(h.next, r.WithContext(Context(Some(span)))))];
    var d := DurationEvents(durationInstrument, r, elapsed);
    var m := MemoryEvents(rssInstrument, r.ctx, memSys, pid);
    var z := [SpanEnd(span)];
    SelectSix(a, b, c, d, m, z, IsInvoke);
    SelectNone(a, IsInvoke);
    SelectNone(b, IsInvoke);
    SelectAll(c, IsInvoke);
    SelectNone(d, IsInvoke);
    SelectNone(m, IsInvoke);
    SelectNone(z, IsInvoke);
    assert [] + [] + c + ([] + [] + []) == c;
  }

  /** The measurements of a request: the duration (labelled with method and
      route) if its instrument is set, then the memory reading (labelled with
      the pid) if its instrument is set, both under the request's own context
      rather than the new span's. */
  lemma RequestMeasures(h: TelemetryHandler, span: SpanId, r: Request,
                        durationInstrument: Option<Instrument>, elapsed: Duration,
                        rssInstrument: Option<Instrument>, memSys: Uint64, pid: nat)
    ensures var ms := Select(RequestEvents(h, span, r, durationInstrument, elapsed, rssInstrument, memSys, pid),
                             IsMeasurement);
            && ms == DurationEvents(durationInstrument, r, elapsed) + MemoryEvents(rssInstrument, r.ctx, memSys, pid)
            && forall i :: 0 <= i < |ms| ==> ms[i].ctx == r.ctx
  {
    var d := DurationEvents(durationInstrument, r, elapsed);
    var m := MemoryEvents(rssInstrument, r.ctx, memSys, pid);
    RequestMeasurementEvents(h, span, r, durationInstrument, elapsed, rssInstrument, memSys, pid);
    assert forall i :: 0 <= i < |d + m| ==> (d + m)[i] == if i < |d| then d[0] else m[0];
  }

  lemma RequestMeasurementEvents(h: TelemetryHandler, span: SpanId, r: Request,
                                 durationInstrument: Option<Instrument>, elapsed: Duration,
                                 rssInstrument: Option<Instrument>, memSys: Uint64, pid: nat)
    ensures Select(RequestEvents(h, span, r, durationInstrument, elapsed, rssInstrument, memSys, pid), IsMeasurement)
            == DurationEvents(durationInstrument, r, elapsed) + MemoryEvents(rssInstrument, r.ctx, memSys, pid)
  {
    var a := [SpanStart(RequestTracerName, span, h.operationName, r.ctx)];
    var b := [SpanAttributes(span, RequestAttributes(r))];
    var c := [Invoke(ServeHTTPCall(h.next, r.WithContext(Context(Some(span)))))];
    var d := DurationEvents(durationInstrument, r, elapsed);
    var m := MemoryEvents(rssInstrument, r.ctx, memSys, pid);
    var z := [SpanEnd(span)];
    SelectSix(a, b, c, d, m, z, IsMeasurement);
    SelectNone(a, IsMeasurement);
    SelectNone(b, IsMeasurement);
    SelectNone(c, IsMeasurement);
    SelectAll(d, IsMeasurement);
    SelectAll(m, IsMeasurement);
    SelectNone(z, IsMeasurement);
    assert [] + [] + [] + (d + m + []) == d + m;
  }

  /** The span is the first thing recorded and its end the last. */
  lemma RequestSpanBrackets(h: TelemetryHandler, span: SpanId, r: Request,
                            durationInstrument: Option<Instrument>, elapsed: Duration,
                            rssInstrument: Option<Instrument>, memSys: Uint64, pid: nat)
    ensures var es := RequestEvents(h, span, r, durationInstrument, elapsed, rssInstrument, memSys, pid);
            && es[0] == SpanStart(RequestTracerName, span, h.operationName, r.ctx)
            && es[|es| - 1] == SpanEnd(span)
            && forall i :: 0 < i < |es| - 1 ==> !es[i].SpanStart? && !es[i].SpanEnd?
  {
    var es := RequestEvents(h, span, r, durationInstrument, elapsed, rssInstrument, memSys, pid);
    var d := DurationEvents(durationInstrument, r, elapsed);
    var m := MemoryEvents(rssInstrument, r.ctx, memSys, pid);
    var mid := [SpanAttributes(span, RequestAttributes(r))]
               + [Invoke(ServeHTTPCall(h.next, r.WithContext(Context(Some(span)))))] + d + m;
    assert es == [SpanStart(RequestTracerName, span, h.operationName, r.ctx)] + mid + [SpanEnd(span)];
    assert forall i :: 0 <= i < |mid| ==> !mid[i].SpanStart? && !mid[i].SpanEnd?;
  }

  /** Everything one request adds when the wrapped handler panics: the span
      opens, is annotated and handed to the handler, and the deferred
      `span.End()` still closes it while the panic unwinds. Neither the duration
      nor the memory reading is recorded. */
  function RequestPanicEvents(h: TelemetryHandler, span: SpanId, r: Request): seq<Event> {
    RequestOpening(h, span, r) + [SpanEnd(span)]
  }

  /** A panicking handler still leaves the open spans as they were: the
      request's span is started and ended exactly once. */
  lemma RequestPanicBalanced(s: Spans, h: TelemetryHandler, span: SpanId, r: Request)
    requires s.open <= s.seen && span !in s.seen
    ensures Run(s, RequestPanicEvents(h, span, r)) == Some(Spans(s.open, s.seen + {span}))
  {
    var started := Spans(s.open + {span}, s.seen + {span});
    var a := [SpanStart(RequestTracerName, span, h.operationName, r.ctx)];
    var b := [SpanAttributes(span, RequestAttributes(r))];
    var c := [Invoke(ServeHTTPCall(h.next, r.WithContext(Context(Some(span)))))];
    var z := [SpanEnd(span)];
    RunOne(s, a[0]);
    RunOne(started, b[0]);
    RunOne(started, c[0]);
    RunOne(started, z[0]);
    assert (s.open + {span}) - {span} == s.open;
    RunAppend(s, a, b);
    RunAppend(s, a + b, c);
    RunAppend(s, a + b + c, z);
  }

  /** A panicking handler was called once, and no measurement is recorded. */
  lemma RequestPanicRecordsNothing(h: TelemetryHandler, span: SpanId, r: Request)
    ensures Select(RequestPanicEvents(h, span, r), IsInvoke)
            == [Invoke(ServeHTTPCall(h.next, r.WithContext(Context(Some(span)))))]
    ensures Select(RequestPanicEvents(h, span, r), IsMeasurement) == []
  {
    var es := RequestPanicEvents(h, span, r);
    var a := [SpanStart(RequestTracerName, span, h.operationName, r.ctx)] + [SpanAttributes(span, RequestAttributes(r))];
    var c := [Invoke(ServeHTTPCall(h.next, r.WithContext(Context(Some(span)))))];
    var z := [SpanEnd(span)];
    assert es == a + c + z;
    SelectAppend(a + c, z, IsInvoke);
    SelectAppend(a, c, IsInvoke);
    SelectNone(a, IsInvoke);
    SelectAll(c, IsInvoke);
    SelectNone(z, IsInvoke);
    assert [] + c + [] == c;
    SelectNone(es, IsMeasurement);
  }

  /** `recordMemoryMetrics(ctx)`: reads the memory statistics and, when the gauge
      exists, records `int64(m.Sys)` under the process id. */
  method RecordMemoryMetrics(pkg: OTel.Package, log: EventLog, ctx: Context, memSys: Uint64, pid: nat)
    requires log.Valid()
    modifies log
    ensures log.Valid() && log.spans == old(log.spans) && log.nextSpan == old(log.nextSpan)
    ensures log.events == old(log.events) + MemoryEvents(pkg.processRSSBytes, ctx, memSys, pid)
  {
    if pkg.processRSSBytes.Some? {
      log.Record(pkg.processRSSBytes.value, ctx, RSSValue(memSys),
                 [Attr("process.pid", StringAttr(Strconv.Itoa(pid)))]);
    }
  }

  /** The inner handler of `HTTPTelemetryMiddleware` serving one request.
      `panics` is how the wrapped handler ends: with a panic value, which then
      propagates out of `Serve` once the span is ended, or by returning. */
  method Serve(h: TelemetryHandler, pkg: OTel.Package, log: EventLog, r: Request,
               elapsed: Duration, memSys: Uint64, pid: nat, panics: Option<string>)
    returns (outcome: Completion<()>)
    requires log.Valid()
    modifies log
    ensures log.Valid() && log.spans.open == old(log.spans.open)
    ensures panics.Some? ==>
              && outcome == Panicked(panics.value)
              && log.events == old(log.events) + RequestPanicEvents(h, old(log.nextSpan), r)
    ensures panics.None? ==>
              && outcome == Returned(())
              && log.events == old(log.events)
                   + RequestEvents(h, old(log.nextSpan), r, pkg.httpRequestDuration, elapsed,
                                   pkg.processRSSBytes, memSys, pid)
  {
    var span := BeginRequest(h, log, r);
    assert span !in old(log.spans.open);
    assert (old(log.spans.open) + {span}) - {span} == old(log.spans.open);
    if panics.Some? {
      // the deferred `span.End()` runs while the panic unwinds
      log.EndSpan(span);
      return Panicked(panics.value);
    }
    FinishRequest(pkg, log, span, r, elapsed, memSys, pid);
    outcome := Returned(());
  }

  /** The start of `Serve`: the span is opened, described and handed to the
      wrapped handler with the request. */
  method BeginRequest(h: TelemetryHandler, log: EventLog, r: Request) returns (span: SpanId)
    requires log.Valid()
    modifies log
    ensures log.Valid() && span == old(log.nextSpan) && span !in old(log.spans.seen)
    ensures log.spans == Spans(old(log.spans.open) + {span}, old(log.spans.seen) + {span})
    ensures log.events == old(log.events) + RequestOpening(h, span, r)
  {
    var ctx;
    ctx, span := log.StartSpan(RequestTracerName, r.ctx, h.operationName);
    log.SetAttributes(span, RequestAttributes(r));
    log.Called(ServeHTTPCall(h.next, r.WithContext(ctx)));
  }

  /** The end of `Serve`, once the wrapped handler returned: the measurements,
      then the deferred `span.End()`. */
  method FinishRequest(pkg: OTel.Package, log: EventLog, span: SpanId, r: Request,
                       elapsed: Duration, memSys: Uint64, pid: nat)
    requires log.Valid() && span in log.spans.open
    modifies log
    ensures log.Valid() && log.spans == Spans(old(log.spans.open) - {span}, old(log.spans.seen))
    ensures log.events == old(log.events)
              + RequestClosing(span, r, pkg.httpRequestDuration, elapsed, pkg.processRSSBytes, memSys, pid)
  {
    if pkg.httpRequestDuration.Some? {
      log.Record(pkg.httpRequestDuration.value, r.ctx, Seconds(elapsed),
                 [Attr("method", StringAttr(r.httpMethod)), Attr("route", StringAttr(r.url.path))]);
    }
    RecordMemoryMetrics(pkg, log, r.ctx, memSys, pid);
    log.EndSpan(span);
  }
}
