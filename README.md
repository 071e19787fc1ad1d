# music-app telemetry and data core, in Dafny

This project models the Go half of the music-app service. The service serves a
song with its lyrics from a SQLite database. Every request to `/test` is traced
by `HTTPTelemetryMiddleware` with OpenTelemetry, and measured when its
instruments exist. `go/main.go:57` registers no other path through it. A
database call is traced and measured only when it goes through
`InstrumentedDB`, and the service as wired in `go/main.go` makes none that way
(see below). Five parts of the service are modelled:

- **The song query** (`GetSongWithLyricsContext`). One join of `song` and
  `lyrics` is folded into a single `SongWithLyrics`. The id and name come from
  the first row with a non-zero id, because `currentSongID == 0` marks "nothing
  taken yet". Every row adds its lyric text, in row order. A query, scan or
  iteration error gives no result.
- **The instrumented database** (`InstrumentedDB`). Each of the three wrappers
  opens one span of the "music-app-db" tracer and annotates it. It then calls
  the wrapped `*sql.DB` under that span and records a duration when the
  `DBQueryDuration` instrument exists. `QueryContext` and `ExecContext` put the
  error on the span on failure, and every wrapper ends the span by `defer`. The
  wrapped call's answer is returned unchanged. When the wrapped call panics,
  the deferred `span.End()` still closes the span, nothing is recorded, and the
  panic propagates.
- **The request middleware** (`HTTPTelemetryMiddleware`, `recordMemoryMetrics`).
  One span named after the operation is opened, and the wrapped handler runs
  once under it. The request duration and the memory gauge follow, each under
  the request's own context and only when its instrument exists. The span ends
  last, and also when the wrapped handler panics, in which case nothing is
  recorded.
- **The telemetry pipeline** (`InitOTel`, `initMetrics`, the shutdown closure).
  A failure creating the resource or either exporter is fatal. The three
  instruments are requested in turn, and a failure is only logged. Shutdown
  stops the tracer provider, then the meter provider, and returns nil.
- **Schema and seed data** (`CreateTables`, `InsertSampleData`). The tables are
  created in order, stopping at the first error. Seeding does nothing when a
  song exists. Otherwise it inserts one song and then its four lyric lines,
  numbered 1 to 4, stopping at the first failed insert.

Telemetry is one append-only event log, `Telemetry.EventLog`. It records span
starts, attributes, errors and ends, and measurements. It also records each call
the instrumentation makes into the code it wraps, so the log shows how often
that code ran and under which context. Replaying the log (`Telemetry.Run`)
checks the span lifecycle, and `EndSpan` only accepts an open span.

Each wrapper is a method that appends to the log. It is proved to append exactly
the events of a specification function (`DbCallEvents`, `RequestEvents`). Lemmas
then prove what the Go code promises about those events.

The OpenTelemetry SDK, the exporters, the SQLite engine, the clock,
`runtime.ReadMemStats` and `os.Getpid` are not modelled as code. Their answers
are inputs:

- `OTel.Environment` holds the SDK's answers.
- `Sql.DB` is a record of what the database answers.
- `Schema.Faults` is a fault oracle for SQLite statements.
- `elapsed`, `memSys` and `pid` stand for the clock, the memory reading and the
  process id.
- `panics` says whether the wrapped database call or handler panics, and with
  what value. `Base.Completion` is how such a call ended: it returned, or it
  panicked.

`Sql.DB`, which answers the song query, and `Schema.Store`, which the seeding
code fills, are two separate views of the database. Nothing in the model
connects the seeded rows to the rows the join query returns.

The package globals of `otel` are fields of `OTel.Package`. The SQLite store is
the state of `Schema.Database`.

## Notes on the code

- **Instrument globals after a failed creation.** An instrument whose creation
  failed is not left unset: the code assigns whatever handle the meter
  returned, error or not (`go/src/otel/otel.go:113-139`). `OTel.Assigned`
  models that assignment.
- **The request path and the instrumented database.** No database call of the
  service goes through `InstrumentedDB`. The handler is given the unwrapped
  `*sql.DB` (`go/main.go:54`), and `CreateTables` and `InsertSampleData` run on
  the raw `db` (`go/main.go:44` and `:49`). The wrappers are modelled as written,
  on their own.

## Model

| member | source | states |
|---|---|---|
| SongQueries.GetSongWithLyricsContext | go/src/database/queries/song_queries.go:15-58 | The loop with its `currentSongID` sentinel returns exactly `SongFromQuery` of the database's answer to the join query under `ctx`. That is the fold of the scanned rows, or the first query, scan or iteration error. |
| SongQueries.GetSongWithLyrics | go/src/database/queries/song_queries.go:10-12 | Same answer as the context version under the background context. |
| SongQueries.ScanJoinRow | go/src/database/queries/song_queries.go:37 | A row scans exactly when `Rows.Scan` accepts its columns into an int, a string and a string. |
| SongQueries.ScanJoinRowColumns | go/src/database/queries/song_queries.go:37 | The three scanned values go to the song id, the song name and the lyric text, in column order. A refused scan reports `Rows.Scan`'s own error. |
| SongQueries.ScanRowsPrefixError | go/src/database/queries/song_queries.go:37-40 | Once some prefix of the rows fails to scan, later rows cannot change the error. |
| SongQueries.ScanRowsOk | go/src/database/queries/song_queries.go:33-37 | When every row scans, all rows are kept, one per row, in order. |
| SongQueries.ScanRowsFirstError | go/src/database/queries/song_queries.go:33-40 | When every row before `bad` scans and `bad` does not, the scan fails with `bad`'s error, whatever rows follow. |
| SongQueries.FoldLyrics | go/src/database/queries/song_queries.go:48-51 | The lyrics are the rows' texts, one per row, in row order. |
| SongQueries.FoldAllZero | go/src/database/queries/song_queries.go:42-46 | While every id is 0, each row overwrites id and name. The result has id 0 and the last row's name. |
| SongQueries.FoldFirstNonZero | go/src/database/queries/song_queries.go:42-46 | Id and name come from the first row with a non-zero id, and no later row changes them. |
| SongQueries.SongFromQueryErrors | go/src/database/queries/song_queries.go:23-55 | A query error is returned before any row is read. An iteration error is returned even after rows were read. |
| SongQueries.SongFromQueryScanError | go/src/database/queries/song_queries.go:37-40 | The first row that fails to scan returns its error and no result. Lyrics read so far are dropped, and whatever follows, including an iteration error, is never seen. |
| SongQueries.SongFromQuerySuccess | go/src/database/queries/song_queries.go:29-57 | On success the lyrics are all rows' texts in order. An empty row set gives id 0, an empty name and no lyrics. |
| SongQueries.SongFromQueryIdentity | go/src/database/queries/song_queries.go:42-46 | On success id and name are those of the first row with a non-zero id. If every id is 0, the id is 0 and the name is the last row's. |
| Sql.ConvertAssign | go/src/database/queries/song_queries.go:37 | A NULL column is refused. A text column goes into a string unchanged. A stored value always fits its destination. |
| Sql.Scan | go/src/database/queries/song_queries.go:37 | A scan succeeds only with as many destinations as columns, and every value fits its destination. |
| Strconv.ParseInt | go/src/database/queries/song_queries.go:37 | A text column parsed into an int is within the int64 range and has a digit. A failure is a `*strconv.NumError` about that text. |
| Strconv.ParseIntAccepts | go/src/database/queries/song_queries.go:37 | Only an optional sign followed by decimal digits is accepted. |
| Strconv.ParseIntDecimal | go/src/database/queries/song_queries.go:37 | A decimal number within the int64 range parses to its signed value. |
| Strconv.ParseIntFailure | go/src/database/queries/song_queries.go:37 | A failure is a range error exactly for well-formed numbers outside the int64 range and for inputs whose leading digits pass 2^64 - 1 before a non-digit. Every other failure is a syntax error. |
| Strconv.ParseIntOverflowFirst | go/src/database/queries/song_queries.go:37 | Digits worth 2^64 or more followed by a non-digit are not a decimal number, and still fail with a range error, as `ParseUint` checks overflow before it reads the next byte. |
| Strconv.ParseIntOverflowExample | go/src/database/queries/song_queries.go:37 | "18446744073709551616a" fails with a range error. |
| Strconv.Itoa | go/src/middleware/telemetry.go:68 | The pid label is non-empty and starts with a minus sign exactly for negative numbers. |
| Strconv.ParseIntItoa | go/src/middleware/telemetry.go:68 | Parsing the printed label gives the number back for every int64. |
| Strconv.ItoaInjective | go/src/middleware/telemetry.go:68 | Distinct process ids get distinct `process.pid` labels. |
| Base.ToInt64 | go/src/middleware/telemetry.go:66 | `int64(m.Sys)` keeps the low 64 bits. It is the value itself up to 2^63-1 and negative above that. |
| Middleware.RSSValue | go/src/middleware/telemetry.go:66 | The gauge value is an int64, equal to `m.Sys` whenever `m.Sys` fits. |
| Http.Request.WithContext | go/src/middleware/telemetry.go:38 | The request handed on differs from the inbound one only in its context. |
| Telemetry.EventLog.StartSpan | go/src/database/instrumented_db.go:35 | `tracer.Start` opens a span never seen before and returns a context carrying it. |
| Telemetry.EventLog.SetAttributes | go/src/database/instrumented_db.go:39-42 | Attributes go on an open span, and the lifecycle stays valid. |
| Telemetry.EventLog.RecordError | go/src/database/instrumented_db.go:57-59 | An error goes on an open span, and the lifecycle stays valid. |
| Telemetry.EventLog.EndSpan | go/src/database/instrumented_db.go:36 | Only an open span can be ended, and it is then closed, so no span ends twice. |
| Telemetry.EventLog.Record | go/src/database/instrumented_db.go:50-54 | A measurement is appended with its instrument, context, value and labels. Spans are untouched. |
| Telemetry.EventLog.Called | go/src/database/instrumented_db.go:45 | A call into the wrapped code is appended. Spans are untouched. |
| InstrumentedDb.SpanName | go/src/database/instrumented_db.go:35 | A span name is `db.` followed by the operation label. |
| InstrumentedDb.InstrumentedDB.constructor | go/src/database/instrumented_db.go:23-28 | Wraps the given database with the "music-app-db" tracer. |
| InstrumentedDb.InstrumentedDB.StartDbSpan | go/src/database/instrumented_db.go:35-42 | Opens a fresh span under the caller's context and gives it the `db.operation` and `db.sql` attributes. |
| InstrumentedDb.InstrumentedDB.FinishDbSpan | go/src/database/instrumented_db.go:48-59 | Records the duration only when the instrument exists, then the span error only on failure, then closes the span. |
| InstrumentedDb.InstrumentedDB.QueryContext | go/src/database/instrumented_db.go:31-62 | Unless the wrapped call panics, it returns exactly the wrapped database's answer under the span's context, and the log gains `DbCallEvents` for "query" with error label `err != nil`. On a panic, the panic propagates and the log gains `DbPanicEvents`. Either way the set of open spans is unchanged. |
| InstrumentedDb.InstrumentedDB.QueryRowContext | go/src/database/instrumented_db.go:65-92 | Unless the wrapped call panics, it returns the wrapped row unchanged, with the label always `error=false` and no span error. On a panic, the panic propagates and the log gains `DbPanicEvents`. |
| InstrumentedDb.InstrumentedDB.ExecContext | go/src/database/instrumented_db.go:95-126 | Unless the wrapped call panics, it returns exactly the wrapped result, and the log gains `DbCallEvents` for "exec" with error label `err != nil`. On a panic, the panic propagates and the log gains `DbPanicEvents`. Either way the set of open spans is unchanged. |
| InstrumentedDb.DbCallBalanced | go/src/database/instrumented_db.go:35-36 | A wrapped call starts one new span and ends it once, leaving the open spans as they were. |
| InstrumentedDb.DbCallInvokesOnce | go/src/database/instrumented_db.go:45 | The wrapped database is called exactly once, and nothing else is invoked. |
| InstrumentedDb.DbCallMeasures | go/src/database/instrumented_db.go:49-55 | One duration measurement under the span's context, with the operation and error labels, exactly when the instrument exists; none otherwise. |
| InstrumentedDb.DbCallRecordsError | go/src/database/instrumented_db.go:57-59 | The span gets an error event exactly when the call failed, and it carries that error. |
| InstrumentedDb.DbCallSpanBrackets | go/src/database/instrumented_db.go:32-61 | The span start is the first event and its end the last. Attributes, the call, the measurement and the error fall inside the span. |
| InstrumentedDb.DbPanicBalanced | go/src/database/instrumented_db.go:35-45 | When the wrapped call panics, the deferred `span.End()` still closes the span, so the open spans are as before. |
| InstrumentedDb.DbPanicRecordsNothing | go/src/database/instrumented_db.go:45-59 | A panicking call was invoked once, and neither a duration nor a span error is recorded for it. |
| Middleware.DurationEvents | go/src/middleware/telemetry.go:44-50 | Exactly one duration measurement when `HTTPRequestDuration` is set, none otherwise. |
| Middleware.MemoryEvents | go/src/middleware/telemetry.go:64-70 | Exactly one gauge reading when `ProcessRSSBytes` is set, none otherwise. |
| Middleware.RecordMemoryMetrics | go/src/middleware/telemetry.go:60-71 | Appends `MemoryEvents` and leaves the span lifecycle as it was. |
| Middleware.BeginRequest | go/src/middleware/telemetry.go:26-38 | Opens a fresh span under the request's context and adds the three attributes. Then calls the handler with the request carrying the span. |
| Middleware.FinishRequest | go/src/middleware/telemetry.go:41-53 | Appends the duration, then the memory reading, then ends the span. |
| Middleware.Serve | go/src/middleware/telemetry.go:20-57 | When the wrapped handler returns, serving a request appends exactly `RequestEvents`. When it panics, the panic propagates and the log gains `RequestPanicEvents`. Either way the set of open spans is unchanged. |
| Middleware.RequestBalanced | go/src/middleware/telemetry.go:27-28 | One request starts one new span and ends it once. |
| Middleware.RequestInvokesHandlerOnce | go/src/middleware/telemetry.go:38 | The wrapped handler is called exactly once, with the same method and URL and a context carrying the new span. |
| Middleware.RequestMeasures | go/src/middleware/telemetry.go:44-53 | The measurements are the duration (if its instrument is set), then the memory reading (if its instrument is set). Both use the request's own context, not the span's. |
| Middleware.RequestSpanBrackets | go/src/middleware/telemetry.go:27-54 | The span start is the first event and its end the last, with no other span started or ended between. |
| Middleware.RequestPanicBalanced | go/src/middleware/telemetry.go:27-38 | When the wrapped handler panics, the deferred `span.End()` still closes the request's span. |
| Middleware.RequestPanicRecordsNothing | go/src/middleware/telemetry.go:38-53 | A panicking handler was called once, and neither the duration nor the memory reading is recorded. |
| OTel.LogIfFailed | go/src/otel/otel.go:118-120 | A log line exactly when there is an error, and nothing but log lines. |
| OTel.Assigned | go/src/otel/otel.go:113-117 | A global holds an instrument exactly when the meter returned a handle, whether or not an error came with it. |
| OTel.InstrumentSteps | go/src/otel/otel.go:113-120 | One request, plus one log line exactly on error. |
| OTel.InstrumentStepsRequest | go/src/otel/otel.go:113-120 | One request asks for exactly its instrument and otherwise only logs. |
| OTel.MetricsRequestsAll | go/src/otel/otel.go:109-141 | `initMetrics` requests http, db and rss in that order, whatever the meter answers, and otherwise only logs. |
| OTel.SetupStepsOrder | go/src/otel/otel.go:37-86 | No pipeline step is fatal by itself. The three fallible steps are first, second and fourth: the tracer provider is installed between the two exporters, and the meter provider and the propagator come last. |
| OTel.InitSteps | go/src/otel/otel.go:33-106 | `InitOTel` always starts by creating the resource. |
| OTel.InitStepsResourceFailure | go/src/otel/otel.go:37-45 | A resource failure ends the process right after that step. |
| OTel.InitStepsTraceExporterFailure | go/src/otel/otel.go:51-58 | A trace exporter failure ends the process before any provider is installed. |
| OTel.InitStepsMetricExporterFailure | go/src/otel/otel.go:68-75 | A metric exporter failure ends the process after the tracer provider, before the meter provider. |
| OTel.FailedSetupExits | go/src/otel/otel.go:43-75 | A failed setup ends with `log.Fatalf`, and no earlier step is fatal. |
| OTel.FinishStepsContinue | go/src/otel/otel.go:89-94 | The steps after the pipeline are never fatal, and the last is the success message. |
| OTel.InitExitsIffSetupFails | go/src/otel/otel.go:43-75 | `InitOTel` ends the process exactly when the resource or an exporter fails. Nothing runs after `log.Fatalf`. |
| OTel.FinishStepsRequestAll | go/src/otel/otel.go:89-94 | After the pipeline, the three instruments are requested in order. |
| OTel.InitRequestsAllInstruments | go/src/otel/otel.go:89-140 | No instrument is requested when setup fails. Otherwise exactly http, db and rss are requested, in that order, with their fixed names and units. |
| OTel.InitExportsToEndpoint | go/src/otel/otel.go:48-83 | Both exporters dial the same endpoint. The tracer provider batches, and the meter reader exports every 10 seconds. |
| OTel.ShutdownSteps | go/src/otel/otel.go:97-105 | The tracer provider is shut down first. The meter provider is always shut down later, and nothing is fatal. |
| OTel.Package.constructor | go/src/otel/otel.go:22-30 | The globals start unset. |
| OTel.Package.RequestInstrument | go/src/otel/otel.go:113-120 | Appends one request (and a log line on error) and returns the assigned handle. |
| OTel.Package.InitMetrics | go/src/otel/otel.go:109-141 | Appends `MetricsSteps`, and each global takes the meter's answer. |
| OTel.Package.Fatalf | go/src/otel/otel.go:44 | Writes the fatal message and ends the process. |
| OTel.Package.SetUpPipeline | go/src/otel/otel.go:37-86 | Succeeds exactly when no setup step fails. The process has exited exactly when one did. |
| OTel.Package.FinishInit | go/src/otel/otel.go:89-105 | Sets the meter and the three globals and returns the shutdown closure over the two providers. |
| OTel.Package.InitOTel | go/src/otel/otel.go:33-106 | Appends `InitSteps` and exits exactly on a setup failure; then there is no shutdown function and the globals are untouched. Otherwise it returns the closure over both providers, with the meter and instruments set. |
| OTel.Package.Shutdown | go/src/otel/otel.go:97-105 | Always returns nil and appends `ShutdownSteps`. Nothing else changes. |
| Schema.Create | go/src/database/schema.go:8-22 | `CREATE TABLE IF NOT EXISTS` succeeds unless the engine rejects it, and then the table exists. On failure nothing changes. |
| Schema.Count | go/src/database/schema.go:39 | The count succeeds exactly when `song` exists and the query is not rejected, and it is the number of songs. |
| Schema.AddSong | go/src/database/schema.go:49-57 | The song takes the next id, and `LastInsertId` reports it unless that call fails. A failed insert changes nothing. |
| Schema.AddLyric | go/src/database/schema.go:15-22 | A lyric row is added exactly when `lyrics` exists, its (song, line) key is free and the engine accepts it. Otherwise nothing changes. |
| Schema.Database.ExecCreate | go/src/database/schema.go:24 | The store takes the outcome of `Create`. |
| Schema.Database.QueryCount | go/src/database/schema.go:39 | Answers `Count` of the store. |
| Schema.Database.ExecInsertSong | go/src/database/schema.go:49 | The store takes the outcome of `AddSong`. |
| Schema.Database.ExecInsertLyric | go/src/database/schema.go:68 | The store takes the outcome of `AddLyric`. |
| Schema.CreateTables | go/src/database/schema.go:6-33 | The store and the error are those of `CreateTablesSpec`. |
| Schema.CreateTablesOrder | go/src/database/schema.go:24-32 | `song` comes first, and its failure is returned without attempting `lyrics`. Otherwise the `lyrics` outcome is returned, and success leaves both tables with their rows. |
| Schema.CreateTablesIdempotent | go/src/database/schema.go:8-22 | Creating the tables again after success, on a restart with the new connection's own faults, changes nothing. It succeeds unless the engine rejects one of the two creates. |
| Schema.LyricRows | go/src/database/schema.go:60-68 | Line `k + 1` of the song holds the k-th sample text. |
| Schema.InsertSampleData | go/src/database/schema.go:36-75 | The loop leaves the store and error of `SeedSpec`. |
| Schema.InsertLinesPrefix | go/src/database/schema.go:67-72 | The lyric inserts add a prefix of the intended rows, in order. That is all of them exactly when no insert failed. Otherwise the error returned is that of the first failing insert, on the store the prefix left. |
| Schema.InsertLinesFaultFree | go/src/database/schema.go:67-72 | With no fault and no clashing key, every remaining line is inserted. |
| Schema.SeedSkipsNonEmpty | go/src/database/schema.go:44-46 | When a song exists, seeding returns nil and changes nothing. |
| Schema.SeedCountError | go/src/database/schema.go:39-42 | A failing count is returned before any insert. |
| Schema.SeedOnEmpty | go/src/database/schema.go:49-72 | On an empty store, a failed song insert is returned as is. Otherwise one "Example Song" is added with the next id. A failing `LastInsertId` is returned before any lyric. Then a prefix of the song's four lines, numbered 1 to 4, is added: the whole list exactly on success, and otherwise the lines before the first failing insert, whose own error is returned. |
| Schema.SeedFaultFree | go/src/database/schema.go:49-72 | Without faults, seeding an empty store adds exactly the song and its four lines. |
| Schema.SeedIdempotent | go/src/database/schema.go:44-46 | Seeding again after a seed added the song, on a restart with the new connection's own faults, changes nothing, even if the first run stopped part way through the lyrics. Its only possible error is the count query's. |

## Left out

- The outer `otelhttp.NewHandler` span and its propagation are library code. The model takes whatever context reached the inner handler as the request's context.
- OTLP/gRPC export, batching, the periodic reader's timer and the providers' buffers are library code. Only the configuration that `InitOTel` passes is recorded.
- Durations are `time.Since(start).Seconds()` as a float64. They are an abstract natural number, and no float arithmetic is modelled.
- `runtime.ReadMemStats`, `os.Getpid`, the clock and the SDK's answers are I/O. They are parameters.
- Concurrent requests and the thread safety of the instrument globals are not modelled. Each method runs alone.
- `rows.Close` is deferred cleanup and has no observable effect on the result.
- The nil vs empty `Lyrics` slice: an empty row set gives a nil slice in Go, which is the empty sequence here. JSON encoding, where the two differ, is not part of this model.
- The `lyrics.song` foreign key is not enforced, as in SQLite's default. Only the primary key is.
- Which statements the SQLite engine rejects besides missing tables and key clashes (locks, a full disk) is a fault oracle, not derived.
- `go/main.go`, `go/src/handlers/song_handler.go`, `go/src/database/queries/lyrics.go`, `go/src/database/queries/songs.go` and the `node/` exporter are not part of this model. They are process wiring, HTTP/JSON I/O, SQL pass-throughs or other-language SDK code.
- Go's `database/sql` conversions are modelled only for the int and string destinations that the join uses.
- Error texts produced by `database/sql`, `strconv` and the SQLite driver are written out where the model computes them, with three differences:
  - `Sql.ScanColumns` leaves out the column name that `Rows.Scan` adds to its message, because the model's rows carry no column names.
  - Values quoted with `%q` are shown without Go's escaping.
  - `Schema.NoSuchTable` and `Schema.LyricKeyTaken` carry SQLite's message without the prefix and result code that the driver adds.
  The model never branches on an error's text.
- `Middleware.Serve` assumes the wrapped handler adds nothing to the telemetry log. That holds for the service's song handler, which uses the unwrapped `*sql.DB`, but not for a handler that records telemetry of its own.
- `HTTPTelemetryMiddleware` only pairs `next` with the operation name; what the returned handler does is `Middleware.Serve`.
