/** The telemetry the instrumented code produces, as one append-only event log:
    span starts, span attributes, span errors, span ends and measurements, plus
    the calls the instrumentation makes into the code it wraps, so that the log
    also shows when, how often and with which context those were called.

    A replay of the log over the set of open spans checks the span lifecycle:
    a span is started once, annotated only while open and ended exactly once. */
module Telemetry {
  import opened Base
  import opened Sql
  import opened Http

  datatype AttrValue = StringAttr(s: string) | BoolAttr(b: bool)

  /** An `attribute.KeyValue`. */
  datatype Attr = Attr(key: string, value: AttrValue)

  datatype InstrumentKind = Float64Histogram | Int64Gauge

  /** A metric instrument as its meter created it. */
  datatype Instrument = Instrument(kind: InstrumentKind, name: string, description: string, unit: string)

  /** An elapsed wall-clock time (`time.Since(start).Seconds()`), kept abstract. */
  type Duration = nat

  /** A value recorded on an instrument. */
  datatype Value = Seconds(elapsed: Duration) | Int64Value(n: int)

  /** A call from the instrumentation into the code it wraps. */
  datatype Call =
    | QueryContextCall(ctx: Context, query: string, args: seq<SqlValue>)
    | QueryRowContextCall(ctx: Context, query: string, args: seq<SqlValue>)
    | ExecContextCall(ctx: Context, query: string, args: seq<SqlValue>)
    | ServeHTTPCall(handler: Handler, r: Request)

  datatype Event =
    | SpanStart(tracer: string, span: SpanId, name: string, parent: Context)
    | SpanAttributes(span: SpanId, attrs: seq<Attr>)
    | SpanError(span: SpanId, err: Error)
    | SpanEnd(span: SpanId)
    | Measurement(instrument: Instrument, ctx: Context, value: Value, attrs: seq<Attr>)
    | Invoke(call: Call)

  /** The spans currently open, and every span ever started. */
  datatype Spans = Spans(open: set<SpanId>, seen: set<SpanId>)

  const NoSpans: Spans := Spans({}, {})

  /** One event's effect on the span lifecycle; `None` when it breaks it. */
  function Step(s: Spans, e: Event): (r: Option<Spans>)
    ensures r.Some? ==> r.value.open <= r.value.seen || !(s.open <= s.seen)
  {
    match e
    case SpanStart(_, id, _, _) =>
      if id in s.seen then None else Some(Spans(s.open + {id}, s.seen + {id}))
    case SpanAttributes(id, _) => if id in s.open then Some(s) else None
    case SpanError(id, _) => if id in s.open then Some(s) else None
    case SpanEnd(id) => if id in s.open then Some(Spans(s.open - {id}, s.seen)) else None
    case Measurement(_, _, _, _) => Some(s)
    case Invoke(_) => Some(s)
  }

  /** Replays `log` from `s`; `None` if some event breaks the lifecycle. */
  function Run(s: Spans, log: seq<Event>): Option<Spans>
    decreases |log|
  {
    if log == [] then Some(s)
    else
      match Step(s, log[0])
      case None => None
      case Some(t) => Run(t, log[1..])
  }

  function Then(o: Option<Spans>, log: seq<Event>): Option<Spans>
  {
    match o
    case None => None
    case Some(t) => Run(t, log)
  }

  /** Replaying two logs one after the other is replaying their concatenation. */
  lemma {:induction false} RunAppend(s: Spans, a: seq<Event>, b: seq<Event>)
    ensures Run(s, a + b) == Then(Run(s, a), b)
    decreases |a|
  {
    if a == [] {
      assert a + b == b;
    } else {
      assert (a + b)[0] == a[0] && (a + b)[1..] == a[1..] + b;
      match Step(s, a[0])
      case None =>
      case Some(t) => RunAppend(t, a[1..], b);
    }
  }

  /** Appending one event to a replayable log replays one more step. */
  lemma RunSnoc(s: Spans, log: seq<Event>, e: Event)
    ensures Run(s, log + [e]) == match Run(s, log) case None => None case Some(t) => Step(t, e)
  {
    RunAppend(s, log, [e]);
    match Run(s, log)
    case None =>
    case Some(t) =>
      assert [e][0] == e && [e][1..] == [];
      match Step(t, e)
      case None =>
      case Some(u) => assert Run(u, [e][1..]) == Some(u);
  }

  lemma RunOne(s: Spans, e: Event)
    ensures Run(s, [e]) == Step(s, e)
  {
    assert [e][0] == e && [e][1..] == [];
    match Step(s, e)
    case None =>
    case Some(t) => assert Run(t, [e][1..]) == Some(t);
  }

  /** The events of `log` that `keep` selects, in log order. */
  function Select(log: seq<Event>, keep: Event -> bool): (r: seq<Event>)
    ensures |r| <= |log|
  {
    if log == [] then [] else (if keep(log[0]) then [log[0]] else []) + Select(log[1..], keep)
  }

  lemma {:induction false} SelectAppend(a: seq<Event>, b: seq<Event>, keep: Event -> bool)
    ensures Select(a + b, keep) == Select(a, keep) + Select(b, keep)
  {
    if a != [] {
      assert (a + b)[0] == a[0] && (a + b)[1..] == a[1..] + b;
      SelectAppend(a[1..], b, keep);
    } else {
      assert a + b == b;
    }
  }

  /** Filtering two three-part halves is filtering each part. */
  lemma SelectSix(a: seq<Event>, b: seq<Event>, c: seq<Event>, d: seq<Event>, e: seq<Event>, f: seq<Event>,
                  keep: Event -> bool)
    ensures Select(a + b + c + (d + e + f), keep)
            == Select(a, keep) + Select(b, keep) + Select(c, keep)
               + (Select(d, keep) + Select(e, keep) + Select(f, keep))
  {
    SelectAppend(a + b + c, d + e + f, keep);
    SelectAppend(a, b, keep);
    SelectAppend(a + b, c, keep);
    SelectAppend(d, e, keep);
    SelectAppend(d + e, f, keep);
  }

  lemma {:induction false} SelectNone(log: seq<Event>, keep: Event -> bool)
    requires forall i :: 0 <= i < |log| ==> !keep(log[i])
    ensures Select(log, keep) == []
  {
    if log != [] {
      SelectNone(log[1..], keep);
    }
  }

  lemma {:induction false} SelectAll(log: seq<Event>, keep: Event -> bool)
    requires forall i :: 0 <= i < |log| ==> keep(log[i])
    ensures Select(log, keep) == log
  {
    if log != [] {
      SelectAll(log[1..], keep);
      assert log == [log[0]] + log[1..];
    }
  }

  predicate IsMeasurement(e: Event) { e.Measurement? }
  predicate IsSpanError(e: Event) { e.SpanError? }
  predicate IsInvoke(e: Event) { e.Invoke? }

  /** The process-wide telemetry sink: the tracer provider's and the meter
      provider's view of everything recorded, in order. Span ids are handed out
      by a counter, so every started span is new. */
  class EventLog {
    var events: seq<Event>
    var nextSpan: SpanId
    ghost var spans: Spans

    ghost predicate Valid()
      reads this
    {
      && Run(NoSpans, events) == Some(spans)
      && spans.open <= spans.seen
      && forall id :: id in spans.seen ==> id < nextSpan
    }

    constructor ()
      ensures Valid() && events == [] && spans == NoSpans
    {
      events := [];
      nextSpan := 0;
      spans := NoSpans;
    }

    /** `tracer.Start(parent, name)`: opens a new span and returns a context carrying it. */
    method StartSpan(tracer: string, parent: Context, name: string) returns (ctx: Context, span: SpanId)
      requires Valid()
      modifies this
      ensures Valid()
      ensures span == old(nextSpan) && span !in old(spans.seen) && ctx == Context(Some(span))
      ensures events == old(events) + [SpanStart(tracer, span, name, parent)]
      ensures spans == Spans(old(spans.open) + {span}, old(spans.seen) + {span})
    {
      span := nextSpan;
      ctx := Context(Some(span));
      RunSnoc(NoSpans, events, SpanStart(tracer, span, name, parent));
      events := events + [SpanStart(tracer, span, name, parent)];
      spans := Spans(spans.open + {span}, spans.seen + {span});
      nextSpan := nextSpan + 1;
    }

    /** `span.SetAttributes(attrs...)` on an open span. */
    method SetAttributes(span: SpanId, attrs: seq<Attr>)
      requires Valid() && span in spans.open
      modifies this
      ensures Valid() && nextSpan == old(nextSpan) && spans == old(spans)
      ensures events == old(events) + [SpanAttributes(span, attrs)]
    {
      RunSnoc(NoSpans, events, SpanAttributes(span, attrs));
      events := events + [SpanAttributes(span, attrs)];
    }

    /** `span.RecordError(err)` on an open span. */
    method RecordError(span: SpanId, err: Error)
      requires Valid() && span in spans.open
      modifies this
      ensures Valid() && nextSpan == old(nextSpan) && spans == old(spans)
      ensures events == old(events) + [SpanError(span, err)]
    {
      RunSnoc(NoSpans, events, SpanError(span, err));
      events := events + [SpanError(span, err)];
    }

    /** `span.End()`: only an open span can be ended, so no span ends twice. */
    method EndSpan(span: SpanId)
      requires Valid() && span in spans.open
      modifies this
      ensures Valid() && nextSpan == old(nextSpan)
      ensures spans == Spans(old(spans.open) - {span}, old(spans.seen))
      ensures events == old(events) + [SpanEnd(span)]
    {
      RunSnoc(NoSpans, events, SpanEnd(span));
      events := events + [SpanEnd(span)];
      spans := Spans(spans.open - {span}, spans.seen);
    }

    /** `instrument.Record(ctx, value, metric.WithAttributes(attrs...))`. */
    method Record(instrument: Instrument, ctx: Context, value: Value, attrs: seq<Attr>)
      requires Valid()
      modifies this
      ensures Valid() && nextSpan == old(nextSpan) && spans == old(spans)
      ensures events == old(events) + [Measurement(instrument, ctx, value, attrs)]
    {
      RunSnoc(NoSpans, events, Measurement(instrument, ctx, value, attrs));
      events := events + [Measurement(instrument, ctx, value, attrs)];
    }

    /** Notes a call from the instrumentation into the code it wraps. */
    method Called(call: Call)
      requires Valid()
      modifies this
      ensures Valid() && nextSpan == old(nextSpan) && spans == old(spans)
      ensures events == old(events) + [Invoke(call)]
    {
      RunSnoc(NoSpans, events, Invoke(call));
      events := events + [Invoke(call)];
    }
  }
}
