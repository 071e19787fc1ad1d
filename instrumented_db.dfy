/** `database.InstrumentedDB`: a `*sql.DB` whose three context-taking
    operations are wrapped in a span of the "music-app-db" tracer and timed on
    the `DBQueryDuration` histogram.

    Each wrapper is a method over the process-wide `EventLog` (the telemetry
    sink) and reads the instrument global from the `otel` package state. The
    clock is a parameter: `elapsed` is what `time.Since(start).Seconds()`
    answers when the metric is recorded. */
module InstrumentedDb {
  import opened Base
  import opened Sql
  import opened Telemetry
  import OTel

  const DBTracerName: string := "music-app-db"

  /** The `db.operation` / `operation` label of each wrapper. */
  const QueryOperation: string := "query"
  const QueryRowOperation: string := "query_row"
  const ExecOperation: string := "exec"

  /** Span names are the operation label under the `db.` prefix. */
  function SpanName(operation: string): (name: string)
    ensures |name| == |operation| + 3 && name[..3] == "db." && name[3..] == operation
  {
    "db." + operation
  }

  /** The duration measurement of a wrapped call, when the instrument is set:
      recorded with the span's context and the operation and error labels. */
  function DbMeasurement(instrument: Option<Instrument>, span: SpanId, operation: string, elapsed: Duration,
                         errorLabel: bool): (r: seq<Event>)
    ensures |r| <= 1
  {
    if instrument.Some? then
      [Measurement(instrument.value, Context(Some(span)), Seconds(elapsed),
                   [Attr("operation", StringAttr(operation)), Attr("error", BoolAttr(errorLabel))])]
    else []
  }

  /** `span.RecordError(err)` when the call failed. */
  function SpanErrorEvents(span: SpanId, failure: Option<Error>): (r: seq<Event>)
    ensures |r| <= 1
  {
    if failure.Some? then [SpanError(span, failure.value)] else []
  }

  function DbAttributes(operation: string, query: string): seq<Attr> {
    [Attr("db.operation", StringAttr(operation)), Attr("db.sql", StringAttr(query))]
  }

  /** Everything one wrapped call adds to the telemetry log, in order: the span
      starts under the caller's context, gets its two attributes, the database is
      called with the span's context, the duration is recorded (with the span's
      context) when the instrument exists, an error is put on the span, and the
      deferred `span.End()` closes it. */
  function DbCallEvents(tracer: string, operation: string, span: SpanId, parent: Context, query: string,
                        call: Call, instrument: Option<Instrument>, elapsed: Duration,
                        errorLabel: bool, failure: Option<Error>): seq<Event>
  {
    DbCallOpening(tracer, operation, span, parent, query, call)
    + DbCallClosing(span, operation, instrument, elapsed, errorLabel, failure)
  }

  /** The events up to and including the call into the database. */
  function DbCallOpening(tracer: string, operation: string, span: SpanId, parent: Context, query: string,
                         call: Call): seq<Event>
  {
    [SpanStart(tracer, span, SpanName(operation), parent)]
    + [SpanAttributes(span, DbAttributes(operation, query))]
    + [Invoke(call)]
  }

  /** The events after the database answered. */
  function DbCallClosing(span: SpanId, operation: string, instrument: Option<Instrument>, elapsed: Duration,
                         errorLabel: bool, failure: Option<Error>): seq<Event>
  {
    DbMeasurement(instrument, span, operation, elapsed, errorLabel)
    + SpanErrorEvents(span, failure)
    + [SpanEnd(span)]
  }

  /** A wrapped call leaves the set of open spans as it found it: its own span,
      which must be new, is started, annotated only while open and ended once. */
  lemma DbCallBalanced(s: Spans, tracer: string, operation: string, span: SpanId, parent: Context, query: string,
                       call: Call, instrument: Option<Instrument>, elapsed: Duration,
                       errorLabel: bool, failure: Option<Error>)
    requires s.open <= s.seen && span !in s.seen
    ensures Run(s, DbCallEvents(tracer, operation, span, parent, query, call, instrument, elapsed, errorLabel, failure))
            == Some(Spans(s.open, s.seen + {span}))
  {
    var started := Spans(s.open + {span}, s.seen + {span});
    var a := [SpanStart(tracer, span, SpanName(operation), parent)];
    var b := [SpanAttributes(span, DbAttributes(operation, query))];
    var c := [Invoke(call)];
    var m := DbMeasurement(instrument, span, operation, elapsed, errorLabel);
    var e := SpanErrorEvents(span, failure);
    var z := [SpanEnd(span)];
    RunOne(s, a[0]);
    RunOne(started, b[0]);
    RunOne(started, c[0]);
    if m != [] { RunOne(started, m[0]); }
    if e != [] { RunOne(started, e[0]); }
    RunOne(started, z[0]);
    assert (s.open + {span}) - {span} == s.open;
    RunAppend(s, a, b);
    RunAppend(s, a + b, c);
    RunAppend(s, a + b + c, m + e + z);
    RunAppend(started, m, e);
    RunAppend(started, m + e, z);
  }

  /** The wrapped database is called exactly once, with the given call (whose
      context the wrappers set to the span's), and nothing else is invoked. */
  lemma DbCallInvokesOnce(tracer: string, operation: string, span: SpanId, parent: Context, query: string,
                          call: Call, instrument: Option<Instrument>, elapsed: Duration,
                          errorLabel: bool, failure: Option<Error>)
    ensures Select(DbCallEvents(tracer, operation, span, parent, query, call, instrument, elapsed, errorLabel, failure),
                   IsInvoke) == [Invoke(call)]
  {
    var a := [SpanStart(tracer, span, SpanName(operation), parent)];
    var b := [SpanAttributes(span, DbAttributes(operation, query))];
    var c := [Invoke(call)];
    var m := DbMeasurement(instrument, span, operation, elapsed, errorLabel);
    var e := SpanErrorEvents(span, failure);
    var z := [SpanEnd(span)];
    SelectSix(a, b, c, m, e, z, IsInvoke);
    SelectNone(a, IsInvoke);
    SelectNone(b, IsInvoke);
    SelectAll(c, IsInvoke);
    SelectNone(m, IsInvoke);
    SelectNone(e, IsInvoke);
    SelectNone(z, IsInvoke);
    assert [] + [] + c + ([] + [] + []) == c;
  }

  /** One duration measurement exactly when the instrument global is set,
      carrying the span's context and the operation and error labels. */
  lemma DbCallMeasures(tracer: string, operation: string, span: SpanId, parent: Context, query: string,
                       call: Call, instrument: Option<Instrument>, elapsed: Duration,
                       errorLabel: bool, failure: Option<Error>)
    ensures Select(DbCallEvents(tracer, operation, span, parent, query, call, instrument, elapsed, errorLabel, failure),
                   IsMeasurement)
            == if instrument.None? then []
               else [Measurement(instrument.value, Context(Some(span)), Seconds(elapsed),
                                 [Attr("operation", StringAttr(operation)), Attr("error", BoolAttr(errorLabel))])]
  {
    var a := [SpanStart(tracer, span, SpanName(operation), parent)];
    var b := [SpanAttributes(span, DbAttributes(operation, query))];
    var c := [Invoke(call)];
    var m := DbMeasurement(instrument, span, operation, elapsed, errorLabel);
    var e := SpanErrorEvents(span, failure);
    var z := [SpanEnd(span)];
    SelectSix(a, b, c, m, e, z, IsMeasurement);
    SelectNone(a, IsMeasurement);
    SelectNone(b, IsMeasurement);
    SelectNone(c, IsMeasurement);
    SelectAll(m, IsMeasurement);
    SelectNone(e, IsMeasurement);
    SelectNone(z, IsMeasurement);
    assert [] + [] + [] + (m + [] + []) == m;
  }

  /** The span carries an error event exactly when the call failed, and then
      exactly that error. */
  lemma DbCallRecordsError(tracer: string, operation: string, span: SpanId, parent: Context, query: string,
                           call: Call, instrument: Option<Instrument>, elapsed: Duration,
                           errorLabel: bool, failure: Option<Error>)
    ensures Select(DbCallEvents(tracer, operation, span, parent, query, call, instrument, elapsed, errorLabel, failure),
                   IsSpanError)
            == if failure.None? then [] else [SpanError(span, failure.value)]
  {
    var a := [SpanStart(tracer, span, SpanName(operation), parent)];
    var b := [SpanAttributes(span, DbAttributes(operation, query))];
    var c := [Invoke(call)];
    var m := DbMeasurement(instrument, span, operation, elapsed, errorLabel);
    var e := SpanErrorEvents(span, failure);
    var z := [SpanEnd(span)];
    SelectSix(a, b, c, m, e, z, IsSpanError);
    SelectNone(a, IsSpanError);
    SelectNone(b, IsSpanError);
    SelectNone(c, IsSpanError);
    SelectNone(m, IsSpanError);
    SelectAll(e, IsSpanError);
    SelectNone(z, IsSpanError);
    assert [] + [] + [] + ([] + e + []) == e;
  }

  /** The span is the first event of a wrapped call and its end the last:
      attributes, the call, the measurement and the error all fall inside it. */
  lemma DbCallSpanBrackets(tracer: string, operation: string, span: SpanId, parent: Context, query: string,
                           call: Call, instrument: Option<Instrument>, elapsed: Duration,
                           errorLabel: bool, failure: Option<Error>)
    ensures var es := DbCallEvents(tracer, operation, span, parent, query, call, instrument, elapsed,
                                   errorLabel, failure);
            && es[0] == SpanStart(tracer, span, SpanName(operation), parent)
            && es[|es| - 1] == SpanEnd(span)
            && forall i :: 0 < i < |es| - 1 ==> !es[i].SpanStart? && !es[i].SpanEnd?
  {
    var es := DbCallEvents(tracer, operation, span, parent, query, call, instrument, elapsed, errorLabel, failure);
    var m := DbMeasurement(instrument, span, operation, elapsed, errorLabel);
    var e := SpanErrorEvents(span, failure);
    var mid := [SpanAttributes(span, DbAttributes(operation, query))] + [Invoke(call)] + m + e;
    assert es == [SpanStart(tracer, span, SpanName(operation), parent)] + mid + [SpanEnd(span)];
    assert forall i :: 0 <= i < |mid| ==> !mid[i].SpanStart? && !mid[i].SpanEnd?;
  }

  /** Everything a wrapped call adds when the database call panics: the span
      opens, is annotated and handed to the call, and the deferred `span.End()`
      still closes it while the panic unwinds. The duration and the span error,
      which come after the call, are never reached. */
  function DbPanicEvents(tracer: string, operation: string, span: SpanId, parent: Context, query: string,
                         call: Call): seq<Event>
  {
    DbCallOpening(tracer, operation, span, parent, query, call) + [SpanEnd(span)]
  }

  /** A panicking database call still leaves the open spans as they were: its
      span is started and ended exactly once. */
  lemma DbPanicBalanced(s: Spans, tracer: string, operation: string, span: SpanId, parent: Context, query: string,
                        call: Call)
    requires s.open <= s.seen && span !in s.seen
    ensures Run(s, DbPanicEvents(tracer, operation, span, parent, query, call))
            == Some(Spans(s.open, s.seen + {span}))
  {
    var started := Spans(s.open + {span}, s.seen + {span});
    var a := [SpanStart(tracer, span, SpanName(operation), parent)];
    var b := [SpanAttributes(span, DbAttributes(operation, query))];
    var c := [Invoke(call)];
    var z := [SpanEnd(span)];
    RunOne(s, a[0]);
    RunOne(started, b[0]);
    RunOne(started, c[0]);
    RunOne(started, z[0]);
    assert (s.open + {span}) - {span} == s.open;
    RunAppend(s, a, b);
    RunAppend(s, a + b, c);
    RunAppend(s, a + b + c, z);
  }

  /** A panicking database call was invoked once, and neither a duration nor a
      span error is recorded for it. */
  lemma DbPanicRecordsNothing(tracer: string, operation: string, span: SpanId, parent: Context, query: string,
                              call: Call)
    ensures Select(DbPanicEvents(tracer, operation, span, parent, query, call), IsInvoke) == [Invoke(call)]
    ensures Select(DbPanicEvents(tracer, operation, span, parent, query, call), IsMeasurement) == []
    ensures Select(DbPanicEvents(tracer, operation, span, parent, query, call), IsSpanError) == []
  {
    var es := DbPanicEvents(tracer, operation, span, parent, query, call);
    var a := [SpanStart(tracer, span, SpanName(operation), parent)] + [SpanAttributes(span, DbAttributes(operation, query))];
    var c := [Invoke(call)];
    var z := [SpanEnd(span)];
    assert es == a + c + z;
    SelectAppend(a + c, z, IsInvoke);
    SelectAppend(a, c, IsInvoke);
    SelectNone(a, IsInvoke);
    SelectAll(c, IsInvoke);
    SelectNone(z, IsInvoke);
    assert [] + c + [] == c;
    SelectNone(es, IsMeasurement);
    SelectNone(es, IsSpanError);
  }

  /** The wrapped database and the tracer its spans come from; the wrappers
      append to the process-wide telemetry log. */
  class InstrumentedDB {
    const db: DB
    const tracer: string

    /** `NewInstrumentedDB(db)`: wraps `db` with the "music-app-db" tracer. */
    constructor (db: DB)
      ensures this.db == db && tracer == DBTracerName
    {
      this.db := db;
      tracer := DBTracerName;
    }

    /** The part of a wrapper shared by all three: start the span and annotate it. */
    method StartDbSpan(log: EventLog, ctx: Context, operation: string, query: string)
      returns (spanCtx: Context, span: SpanId)
      requires log.Valid()
      modifies log
      ensures log.Valid()
      ensures span == old(log.nextSpan) && span !in old(log.spans.seen) && spanCtx == Context(Some(span))
      ensures log.spans == Spans(old(log.spans.open) + {span}, old(log.spans.seen) + {span})
      ensures log.events == old(log.events)
                + [SpanStart(tracer, span, SpanName(operation), ctx)]
                + [SpanAttributes(span, DbAttributes(operation, query))]
    {
      spanCtx, span := log.StartSpan(tracer, ctx, SpanName(operation));
      log.SetAttributes(span, DbAttributes(operation, query));
    }

    /** The part of a wrapper after the database answered: the duration metric
        (when the global instrument is set), the span error, and `span.End()`. */
    method FinishDbSpan(log: EventLog, span: SpanId, operation: string, instrument: Option<Instrument>,
                        elapsed: Duration, errorLabel: bool, failure: Option<Error>)
      requires log.Valid() && span in log.spans.open
      modifies log
      ensures log.Valid() && log.nextSpan == old(log.nextSpan)
      ensures log.spans == Spans(old(log.spans.open) - {span}, old(log.spans.seen))
      ensures log.events == old(log.events) + DbCallClosing(span, operation, instrument, elapsed, errorLabel, failure)
    {
      if instrument.Some? {
        log.Record(instrument.value, Context(Some(span)), Seconds(elapsed),
                   [Attr("operation", StringAttr(operation)), Attr("error", BoolAttr(errorLabel))]);
      }
      if failure.Some? {
        log.RecordError(span, failure.value);
      }
      log.EndSpan(span);
    }

    /** `QueryContext`: unless the database call panics, the result is exactly
        what the wrapped database answers for the span's context, and the log
        gains the call's events; a panic propagates after the span is ended. */
    method QueryContext(pkg: OTel.Package, log: EventLog, ctx: Context, query: string, args: seq<SqlValue>,
                        elapsed: Duration, panics: Option<string>)
      returns (outcome: Completion<Result<Rows>>)
      requires log.Valid()
      modifies log
      ensures log.Valid() && log.spans.open == old(log.spans.open)
      ensures panics.Some? ==>
                && outcome == Panicked(panics.value)
                && log.events == old(log.events)
                     + DbPanicEvents(tracer, QueryOperation, old(log.nextSpan), ctx, query,
                                     QueryContextCall(Context(Some(old(log.nextSpan))), query, args))
      ensures panics.None? ==>
                var result := db.queryContext(Context(Some(old(log.nextSpan))), query, args);
                && outcome == Returned(result)
                && log.events == old(log.events)
                     + DbCallEvents(tracer, QueryOperation, old(log.nextSpan), ctx, query,
                                    QueryContextCall(Context(Some(old(log.nextSpan))), query, args),
                                    pkg.dbQueryDuration, elapsed, result.Err?,
                                    if result.Err? then Some(result.error) else None)
    {
      var spanCtx, span := StartDbSpan(log, ctx, QueryOperation, query);
      log.Called(QueryContextCall(spanCtx, query, args));
      assert log.events == old(log.events)
                           + DbCallOpening(tracer, QueryOperation, span, ctx, query, QueryContextCall(spanCtx, query, args));
      assert span !in old(log.spans.open);
      assert (old(log.spans.open) + {span}) - {span} == old(log.spans.open);
      if panics.Some? {
        // the deferred `span.End()` runs while the panic unwinds
        log.EndSpan(span);
        return Panicked(panics.value);
      }
      var result := db.queryContext(spanCtx, query, args);
      FinishDbSpan(log, span, QueryOperation, pkg.dbQueryDuration, elapsed, result.Err?,
                   if result.Err? then Some(result.error) else None);
      outcome := Returned(result);
    }

    /** `QueryRowContext`: any error waits in the returned row, so the metric is
        always labelled `error=false` and the span never gets an error event. */
    method QueryRowContext(pkg: OTel.Package, log: EventLog, ctx: Context, query: string, args: seq<SqlValue>,
                           elapsed: Duration, panics: Option<string>)
      returns (outcome: Completion<Row>)
      requires log.Valid()
      modifies log
      ensures log.Valid() && log.spans.open == old(log.spans.open)
      ensures panics.Some? ==>
                && outcome == Panicked(panics.value)
                && log.events == old(log.events)
                     + DbPanicEvents(tracer, QueryRowOperation, old(log.nextSpan), ctx, query,
                                     QueryRowContextCall(Context(Some(old(log.nextSpan))), query, args))
      ensures panics.None? ==>
                var row := db.queryRowContext(Context(Some(old(log.nextSpan))), query, args);
                && outcome == Returned(row)
                && log.events == old(log.events)
                     + DbCallEvents(tracer, QueryRowOperation, old(log.nextSpan), ctx, query,
                                    QueryRowContextCall(Context(Some(old(log.nextSpan))), query, args),
                                    pkg.dbQueryDuration, elapsed, false, None)
    {
      var spanCtx, span := StartDbSpan(log, ctx, QueryRowOperation, query);
      log.Called(QueryRowContextCall(spanCtx, query, args));
      assert log.events == old(log.events)
                           + DbCallOpening(tracer, QueryRowOperation, span, ctx, query, QueryRowContextCall(spanCtx, query, args));
      assert span !in old(log.spans.open);
      assert (old(log.spans.open) + {span}) - {span} == old(log.spans.open);
      if panics.Some? {
        // the deferred `span.End()` runs while the panic unwinds
        log.EndSpan(span);
        return Panicked(panics.value);
      }
      var row := db.queryRowContext(spanCtx, query, args);
      FinishDbSpan(log, span, QueryRowOperation, pkg.dbQueryDuration, elapsed, false, None);
      outcome := Returned(row);
    }

    /** `ExecContext`: like `QueryContext`, for statements. */
    method ExecContext(pkg: OTel.Package, log: EventLog, ctx: Context, query: string, args: seq<SqlValue>,
                       elapsed: Duration, panics: Option<string>)
      returns (outcome: Completion<Result<ExecResult>>)
      requires log.Valid()
      modifies log
      ensures log.Valid() && log.spans.open == old(log.spans.open)
      ensures panics.Some? ==>
                && outcome == Panicked(panics.value)
                && log.events == old(log.events)
                     + DbPanicEvents(tracer, ExecOperation, old(log.nextSpan), ctx, query,
                                     ExecContextCall(Context(Some(old(log.nextSpan))), query, args))
      ensures panics.None? ==>
                var result := db.execContext(Context(Some(old(log.nextSpan))), query, args);
                && outcome == Returned(result)
                && log.events == old(log.events)
                     + DbCallEvents(tracer, ExecOperation, old(log.nextSpan), ctx, query,
                                    ExecContextCall(Context(Some(old(log.nextSpan))), query, args),
                                    pkg.dbQueryDuration, elapsed, result.Err?,
                                    if result.Err? then Some(result.error) else None)
    {
      var spanCtx, span := StartDbSpan(log, ctx, ExecOperation, query);
      log.Called(ExecContextCall(spanCtx, query, args));
      assert log.events == old(log.events)
                           + DbCallOpening(tracer, ExecOperation, span, ctx, query, ExecContextCall(spanCtx, query, args));
      assert span !in old(log.spans.open);
      assert (old(log.spans.open) + {span}) - {span} == old(log.spans.open);
      if panics.Some? {
        // the deferred `span.End()` runs while the panic unwinds
        log.EndSpan(span);
        return Panicked(panics.value);
      }
      var result := db.execContext(spanCtx, query, args);
      FinishDbSpan(log, span, ExecOperation, pkg.dbQueryDuration, elapsed, result.Err?,
                   if result.Err? then Some(result.error) else None);
      outcome := Returned(result);
    }
  }
}
