/** Package `otel` of the Go service: `InitOTel` sets up the telemetry pipeline
    (resource, trace exporter and batching tracer provider, metric exporter and
    periodic meter provider, propagator, meter), `initMetrics` creates the three
    custom instruments, and the closure `InitOTel` returns shuts the two
    providers down.

    The answers of the OpenTelemetry SDK and exporters are inputs of the model
    (an `Environment`, the outcome of each provider shutdown). What the package
    does is recorded as a sequence of `Step`s; `log.Fatalf` is a `Fatal` step
    after which the process has exited and nothing else happens. */
module OTel {
  import opened Base
  import opened Telemetry

  /** The collector endpoint both exporters dial. */
  const Endpoint: string := "0.0.0.0:4317"

  /** The periodic metric reader's export interval, in seconds. */
  const MetricExportIntervalSeconds: nat := 10

  /** The instrumentation scope of the custom-metrics meter. */
  const MeterName: string := "music-app"

  const HTTPRequestDurationInstrument: Instrument :=
    Instrument(Float64Histogram, "http_request_duration_seconds", "Duration of HTTP requests", "s")
  const DBQueryDurationInstrument: Instrument :=
    Instrument(Float64Histogram, "db_query_duration_seconds", "Duration of database queries", "s")
  const ProcessRSSBytesInstrument: Instrument :=
    Instrument(Int64Gauge, "process_rss_bytes", "Process resident set size", "By")

  /** The service identity attached to all telemetry. */
  datatype Resource = Resource(serviceName: string, serviceVersion: string)

  /** A tracer provider batching spans to an exporter for `endpoint`. */
  datatype TracerProvider = TracerProvider(resource: Resource, endpoint: string, batched: bool)

  /** A meter provider whose periodic reader exports to `endpoint` every `intervalSeconds`. */
  datatype MeterProvider = MeterProvider(resource: Resource, endpoint: string, intervalSeconds: nat)

  /** `otel.Meter(name, metric.WithInstrumentationVersion(version))`. */
  datatype Meter = Meter(name: string, version: string)

  /** The closure `InitOTel` returns; it captures the two providers. */
  datatype ShutdownFunc = ShutdownFunc(tracerProvider: TracerProvider, meterProvider: MeterProvider)

  /** What the meter answers when asked for an instrument: whether the returned
      handle is non-nil, and the error that came with it, if any. */
  datatype MeterAnswer = MeterAnswer(handle: bool, err: Option<Error>)

  /** The answers of the SDK during `InitOTel`: failures creating the resource
      and the two exporters, and the meter's answer for each instrument. */
  datatype Environment = Environment(
    resourceErr: Option<Error>,
    traceExporterErr: Option<Error>,
    metricExporterErr: Option<Error>,
    httpAnswer: MeterAnswer,
    dbAnswer: MeterAnswer,
    rssAnswer: MeterAnswer)

  datatype Step =
    | CreateResource(resource: Resource)
    | CreateTraceExporter(endpoint: string, insecure: bool)
    | InstallTracerProvider(tp: TracerProvider)
    | CreateMetricExporter(endpoint: string, insecure: bool)
    | InstallMeterProvider(mp: MeterProvider)
    | InstallTraceContextPropagator
    | CreateMeter(meter: Meter)
    | CreateInstrument(instrument: Instrument)
    | Logged(message: string)
    | Printed(message: string)
    | Fatal(message: string)
    | ShutdownTracerProvider(tp: TracerProvider)
    | ShutdownMeterProvider(mp: MeterProvider)

  /** A step sequence ends the process when its last step is `log.Fatalf`. */
  predicate Exits(steps: seq<Step>) {
    |steps| > 0 && steps[|steps| - 1].Fatal?
  }

  /** The instruments requested, in the order requested. */
  function Requested(steps: seq<Step>): (r: seq<Instrument>)
    ensures |r| <= |steps|
  {
    if steps == [] then []
    else (if steps[0].CreateInstrument? then [steps[0].instrument] else []) + Requested(steps[1..])
  }

  lemma {:induction false} RequestedAppend(a: seq<Step>, b: seq<Step>)
    ensures Requested(a + b) == Requested(a) + Requested(b)
  {
    if a == [] {
      assert a + b == b;
    } else {
      assert (a + b)[0] == a[0] && (a + b)[1..] == a[1..] + b;
      RequestedAppend(a[1..], b);
    }
  }

  lemma {:induction false} NoRequests(steps: seq<Step>)
    requires forall i :: 0 <= i < |steps| ==> !steps[i].CreateInstrument?
    ensures Requested(steps) == []
  {
    if steps != [] {
      NoRequests(steps[1..]);
    }
  }

  /** No step of the sequence ends the process. */
  predicate NoFatal(steps: seq<Step>) {
    forall i :: 0 <= i < |steps| ==> !steps[i].Fatal?
  }

  /** Steps that only request instruments or write log lines. */
  predicate InstrumentRequestsOnly(steps: seq<Step>) {
    forall i :: 0 <= i < |steps| ==> steps[i].CreateInstrument? || steps[i].Logged?
  }

  /** A log line for a failure, or nothing. */
  function LogIfFailed(err: Option<Error>, prefix: string): (r: seq<Step>)
    ensures |r| <= 1 && (r == [] <==> err.None?)
    ensures forall i :: 0 <= i < |r| ==> r[i].Logged?
  {
    match err
    case None => []
    case Some(e) => [Logged(prefix + e.message)]
  }

  /** What an instrument global holds after the meter answered: the code keeps
      whatever handle came back, whether or not an error came with it. */
  function Assigned(answer: MeterAnswer, instrument: Instrument): (r: Option<Instrument>)
    ensures r.Some? <==> answer.handle
    ensures r.Some? ==> r.value == instrument
  {
    if answer.handle then Some(instrument) else None
  }

  /** One instrument request of `initMetrics`, and the log line if it failed. */
  function InstrumentSteps(instrument: Instrument, answer: MeterAnswer, prefix: string): (r: seq<Step>)
    ensures |r| == if answer.err.Some? then 2 else 1
  {
    [CreateInstrument(instrument)] + LogIfFailed(answer.err, prefix)
  }

  /** One request asks for exactly its instrument, and at most logs besides. */
  lemma InstrumentStepsRequest(instrument: Instrument, answer: MeterAnswer, prefix: string)
    ensures var r := InstrumentSteps(instrument, answer, prefix);
            Requested(r) == [instrument] && InstrumentRequestsOnly(r)
  {
    var log := LogIfFailed(answer.err, prefix);
    NoRequests(log);
    RequestedAppend([CreateInstrument(instrument)], log);
  }

  const ResourceFailurePrefix: string := "failed to create resource: "
  const TraceExporterFailurePrefix: string := "failed to create trace exporter: "
  const MetricExporterFailurePrefix: string := "failed to create metric exporter: "
  const InitializedMessage: string := "OpenTelemetry initialized successfully"
  const TracerShutdownFailurePrefix: string := "Error shutting down tracer provider: "
  const MeterShutdownFailurePrefix: string := "Error shutting down meter provider: "
  const HTTPFailurePrefix: string := "failed to create http_request_duration metric: "
  const DBFailurePrefix: string := "failed to create db_query_duration metric: "
  const RSSFailurePrefix: string := "failed to create process_rss_bytes metric: "

  /** The steps of `initMetrics`: each instrument is requested in turn, and a
      failure only adds a log line before the next request. */
  function MetricsSteps(env: Environment): seq<Step>
  {
    InstrumentSteps(HTTPRequestDurationInstrument, env.httpAnswer, HTTPFailurePrefix)
    + InstrumentSteps(DBQueryDurationInstrument, env.dbAnswer, DBFailurePrefix)
    + InstrumentSteps(ProcessRSSBytesInstrument, env.rssAnswer, RSSFailurePrefix)
  }

  /** `initMetrics` requests the three instruments, in the order http, db, rss,
      whatever the meter answers, and otherwise only logs. */
  lemma MetricsRequestsAll(env: Environment)
    ensures Requested(MetricsSteps(env))
            == [HTTPRequestDurationInstrument, DBQueryDurationInstrument, ProcessRSSBytesInstrument]
    ensures InstrumentRequestsOnly(MetricsSteps(env))
  {
    var http := InstrumentSteps(HTTPRequestDurationInstrument, env.httpAnswer, HTTPFailurePrefix);
    var db := InstrumentSteps(DBQueryDurationInstrument, env.dbAnswer, DBFailurePrefix);
    var rss := InstrumentSteps(ProcessRSSBytesInstrument, env.rssAnswer, RSSFailurePrefix);
    InstrumentStepsRequest(HTTPRequestDurationInstrument, env.httpAnswer, HTTPFailurePrefix);
    InstrumentStepsRequest(DBQueryDurationInstrument, env.dbAnswer, DBFailurePrefix);
    InstrumentStepsRequest(ProcessRSSBytesInstrument, env.rssAnswer, RSSFailurePrefix);
    RequestedAppend(http, db);
    RequestedAppend(http + db, rss);
    RequestsOnlyAppend(http, db);
    RequestsOnlyAppend(http + db, rss);
  }

  lemma RequestsOnlyAppend(a: seq<Step>, b: seq<Step>)
    requires InstrumentRequestsOnly(a) && InstrumentRequestsOnly(b)
    ensures InstrumentRequestsOnly(a + b)
  {
    assert forall i :: 0 <= i < |a + b| ==> (a + b)[i] == if i < |a| then a[i] else b[i - |a|];
  }

  function TracerProviderFor(res: Resource): TracerProvider {
    TracerProvider(res, Endpoint, true)
  }

  function MeterProviderFor(res: Resource): MeterProvider {
    MeterProvider(res, Endpoint, MetricExportIntervalSeconds)
  }

  /** The steps of `InitOTel` that set up the export pipeline, when none fails. */
  function SetupSteps(res: Resource): (r: seq<Step>)
    ensures |r| == 6
  {
    [CreateResource(res), CreateTraceExporter(Endpoint, true), InstallTracerProvider(TracerProviderFor(res)),
     CreateMetricExporter(Endpoint, true), InstallMeterProvider(MeterProviderFor(res)),
     InstallTraceContextPropagator]
  }

  /** The pipeline's steps end nothing by themselves. The three that can fail
      come first, second and fourth: the tracer provider is installed between
      the two exporters, and the meter provider and the propagator come last. */
  lemma SetupStepsOrder(res: Resource)
    ensures var r := SetupSteps(res);
            && NoFatal(r)
            && r[0].CreateResource? && r[1].CreateTraceExporter? && r[2].InstallTracerProvider?
            && r[3].CreateMetricExporter? && r[4].InstallMeterProvider? && r[5].InstallTraceContextPropagator?
  {
  }

  /** The steps of `InitOTel` after the pipeline: the meter, the instruments
      and the closing message. */
  function FinishSteps(serviceVersion: string, env: Environment): seq<Step>
  {
    [CreateMeter(Meter(MeterName, serviceVersion))] + MetricsSteps(env) + [Printed(InitializedMessage)]
  }

  predicate SetupFails(env: Environment) {
    env.resourceErr.Some? || env.traceExporterErr.Some? || env.metricExporterErr.Some?
  }

  /** The steps of `InitOTel` when setting up the pipeline fails: the steps up
      to the failing one, then `log.Fatalf`. */
  function FailedSetupSteps(res: Resource, env: Environment): (r: seq<Step>)
    requires SetupFails(env)
  {
    var p := SetupSteps(res);
    if env.resourceErr.Some? then
      p[..1] + [Fatal(ResourceFailurePrefix + env.resourceErr.value.message)]
    else if env.traceExporterErr.Some? then
      p[..2] + [Fatal(TraceExporterFailurePrefix + env.traceExporterErr.value.message)]
    else
      p[..4] + [Fatal(MetricExporterFailurePrefix + env.metricExporterErr.value.message)]
  }

  /** The steps of `InitOTel`: a failure creating the resource, the trace
      exporter or the metric exporter ends the process right there. */
  function InitSteps(serviceName: string, serviceVersion: string, env: Environment): (r: seq<Step>)
    ensures |r| > 0 && r[0] == CreateResource(Resource(serviceName, serviceVersion))
  {
    var res := Resource(serviceName, serviceVersion);
    if SetupFails(env) then FailedSetupSteps(res, env)
    else SetupSteps(res) + FinishSteps(serviceVersion, env)
  }

  /** `InitSteps` written out for each way `InitOTel` can end. */
  lemma InitStepsResourceFailure(serviceName: string, serviceVersion: string, env: Environment)
    requires env.resourceErr.Some?
    ensures InitSteps(serviceName, serviceVersion, env)
            == [CreateResource(Resource(serviceName, serviceVersion)),
                Fatal(ResourceFailurePrefix + env.resourceErr.value.message)]
  {
  }

  lemma InitStepsTraceExporterFailure(serviceName: string, serviceVersion: string, env: Environment)
    requires env.resourceErr.None? && env.traceExporterErr.Some?
    ensures InitSteps(serviceName, serviceVersion, env)
            == [CreateResource(Resource(serviceName, serviceVersion)), CreateTraceExporter(Endpoint, true),
                Fatal(TraceExporterFailurePrefix + env.traceExporterErr.value.message)]
  {
  }

  lemma InitStepsMetricExporterFailure(serviceName: string, serviceVersion: string, env: Environment)
    requires env.resourceErr.None? && env.traceExporterErr.None? && env.metricExporterErr.Some?
    ensures var res := Resource(serviceName, serviceVersion);
            InitSteps(serviceName, serviceVersion, env)
            == [CreateResource(res), CreateTraceExporter(Endpoint, true),
                InstallTracerProvider(TracerProviderFor(res)), CreateMetricExporter(Endpoint, true),
                Fatal(MetricExporterFailurePrefix + env.metricExporterErr.value.message)]
  {
  }

  lemma NoFatalAppend(a: seq<Step>, b: seq<Step>)
    requires NoFatal(a) && NoFatal(b)
    ensures NoFatal(a + b)
  {
    assert forall i :: 0 <= i < |a + b| ==> (a + b)[i] == if i < |a| then a[i] else b[i - |a|];
  }

  /** A failed setup ends with `log.Fatalf`, and no earlier step is fatal. */
  lemma FailedSetupExits(res: Resource, env: Environment)
    requires SetupFails(env)
    ensures var r := FailedSetupSteps(res, env);
            Exits(r) && NoFatal(r[..|r| - 1])
  {
    var p := SetupSteps(res);
    var r := FailedSetupSteps(res, env);
    var k := if env.resourceErr.Some? then 1 else if env.traceExporterErr.Some? then 2 else 4;
    assert r[..|r| - 1] == p[..k];
  }

  /** The steps after the pipeline never end the process: the last is the
      closing message. */
  lemma FinishStepsContinue(serviceVersion: string, env: Environment)
    ensures var f := FinishSteps(serviceVersion, env);
            NoFatal(f) && |f| > 0 && f[|f| - 1] == Printed(InitializedMessage)
  {
    var m := MetricsSteps(env);
    MetricsRequestsAll(env);
    NoFatalAppend([CreateMeter(Meter(MeterName, serviceVersion))], m);
    NoFatalAppend([CreateMeter(Meter(MeterName, serviceVersion))] + m, [Printed(InitializedMessage)]);
  }

  /** `InitOTel` ends the process exactly when one of its three setup steps
      fails, and `log.Fatalf` is always its last step: nothing runs after it. */
  lemma InitExitsIffSetupFails(serviceName: string, serviceVersion: string, env: Environment)
    ensures var r := InitSteps(serviceName, serviceVersion, env);
            && (Exits(r) <==> SetupFails(env))
            && NoFatal(r[..|r| - 1])
  {
    var res := Resource(serviceName, serviceVersion);
    var r := InitSteps(serviceName, serviceVersion, env);
    if SetupFails(env) {
      FailedSetupExits(res, env);
    } else {
      var p := SetupSteps(res);
      var f := FinishSteps(serviceVersion, env);
      FinishStepsContinue(serviceVersion, env);
      NoFatalAppend(p, f);
      assert r[|r| - 1] == f[|f| - 1];
      assert forall i :: 0 <= i < |r| - 1 ==> r[..|r| - 1][i] == r[i];
    }
  }

  /** The steps after the pipeline request the three instruments, in order. */
  lemma FinishStepsRequestAll(serviceVersion: string, env: Environment)
    ensures Requested(FinishSteps(serviceVersion, env))
            == [HTTPRequestDurationInstrument, DBQueryDurationInstrument, ProcessRSSBytesInstrument]
  {
    var meter := [CreateMeter(Meter(MeterName, serviceVersion))];
    var m := MetricsSteps(env);
    var done := [Printed(InitializedMessage)];
    NoRequests(meter);
    NoRequests(done);
    MetricsRequestsAll(env);
    RequestedAppend(meter, m);
    RequestedAppend(meter + m, done);
  }

  /** A fatal setup failure requests no instrument; otherwise all three are
      requested, in the order http, db, rss, whatever the meter answers. */
  lemma InitRequestsAllInstruments(serviceName: string, serviceVersion: string, env: Environment)
    ensures Requested(InitSteps(serviceName, serviceVersion, env))
            == if SetupFails(env) then []
               else [HTTPRequestDurationInstrument, DBQueryDurationInstrument, ProcessRSSBytesInstrument]
  {
    var res := Resource(serviceName, serviceVersion);
    if SetupFails(env) {
      var r := FailedSetupSteps(res, env);
      assert forall i :: 0 <= i < |r| ==> !r[i].CreateInstrument?;
      NoRequests(r);
    } else {
      NoRequests(SetupSteps(res));
      FinishStepsRequestAll(serviceVersion, env);
      RequestedAppend(SetupSteps(res), FinishSteps(serviceVersion, env));
    }
  }

  /** An exporter or provider step that targets the collector endpoint, with a
      batching tracer provider and a ten-second metric reader. */
  predicate ExportsToEndpoint(step: Step) {
    && (step.CreateTraceExporter? ==> step.endpoint == Endpoint)
    && (step.CreateMetricExporter? ==> step.endpoint == Endpoint)
    && (step.InstallTracerProvider? ==> step.tp.endpoint == Endpoint && step.tp.batched)
    && (step.InstallMeterProvider? ==>
          step.mp.endpoint == Endpoint && step.mp.intervalSeconds == MetricExportIntervalSeconds)
  }

  /** Both exporters dial the same collector endpoint, and the meter provider's
      reader exports to it every ten seconds. */
  lemma InitExportsToEndpoint(serviceName: string, serviceVersion: string, env: Environment)
    ensures var r := InitSteps(serviceName, serviceVersion, env);
            forall i :: 0 <= i < |r| ==> ExportsToEndpoint(r[i])
  {
    var r := InitSteps(serviceName, serviceVersion, env);
    var p := SetupSteps(Resource(serviceName, serviceVersion));
    assert forall i :: 0 <= i < |p| ==> ExportsToEndpoint(p[i]);
    if !SetupFails(env) {
      var m := MetricsSteps(env);
      var f := FinishSteps(serviceVersion, env);
      MetricsRequestsAll(env);
      assert forall i :: 0 <= i < |f| ==> ExportsToEndpoint(f[i]);
      assert r == p + f;
    }
  }

  /** The steps of the shutdown closure: the tracer provider first, then the
      meter provider whatever the first outcome was; failures are only logged. */
  function ShutdownSteps(f: ShutdownFunc, tracerErr: Option<Error>, meterErr: Option<Error>): (r: seq<Step>)
    ensures |r| == 2 + (if tracerErr.Some? then 1 else 0) + (if meterErr.Some? then 1 else 0)
    ensures r[0] == ShutdownTracerProvider(f.tracerProvider)
    ensures exists i :: 0 < i < |r| && r[i] == ShutdownMeterProvider(f.meterProvider)
    ensures NoFatal(r)
  {
    var t := LogIfFailed(tracerErr, TracerShutdownFailurePrefix);
    var r := [ShutdownTracerProvider(f.tracerProvider)] + t + [ShutdownMeterProvider(f.meterProvider)]
      + LogIfFailed(meterErr, MeterShutdownFailurePrefix);
    assert r[1 + |t|] == ShutdownMeterProvider(f.meterProvider);
    r
  }

  /** The package-level state of `otel`: the exported globals `Meter`,
      `HTTPRequestDuration`, `DBQueryDuration` and `ProcessRSSBytes`, the steps
      taken so far, and whether `log.Fatalf` has ended the process. */
  class Package {
    var meter: Option<Meter>
    var httpRequestDuration: Option<Instrument>
    var dbQueryDuration: Option<Instrument>
    var processRSSBytes: Option<Instrument>
    var steps: seq<Step>
    var exited: bool

    /** The zero values of the package globals, before `InitOTel`. */
    constructor ()
      ensures meter == None && httpRequestDuration == None && dbQueryDuration == None
      ensures processRSSBytes == None && steps == [] && !exited
    {
      meter := None;
      httpRequestDuration := None;
      dbQueryDuration := None;
      processRSSBytes := None;
      steps := [];
      exited := false;
    }

    /** `initMetrics`: the three instruments are requested in order, each global
        takes the meter's answer, and a failure is logged and nothing more. */
    method InitMetrics(env: Environment)
      modifies this`steps, this`httpRequestDuration, this`dbQueryDuration, this`processRSSBytes
      ensures steps == old(steps) + MetricsSteps(env)
      ensures httpRequestDuration == Assigned(env.httpAnswer, HTTPRequestDurationInstrument)
      ensures dbQueryDuration == Assigned(env.dbAnswer, DBQueryDurationInstrument)
      ensures processRSSBytes == Assigned(env.rssAnswer, ProcessRSSBytesInstrument)
    {
      httpRequestDuration := RequestInstrument(HTTPRequestDurationInstrument, env.httpAnswer, HTTPFailurePrefix);
      dbQueryDuration := RequestInstrument(DBQueryDurationInstrument, env.dbAnswer, DBFailurePrefix);
      processRSSBytes := RequestInstrument(ProcessRSSBytesInstrument, env.rssAnswer, RSSFailurePrefix);
    }

    /** One `Meter.Float64Histogram` / `Meter.Int64Gauge` call and its error check. */
    method RequestInstrument(instrument: Instrument, answer: MeterAnswer, prefix: string)
      returns (handle: Option<Instrument>)
      modifies this`steps
      ensures steps == old(steps) + InstrumentSteps(instrument, answer, prefix)
      ensures handle == Assigned(answer, instrument)
    {
      steps := steps + [CreateInstrument(instrument)];
      handle := Assigned(answer, instrument);
      if answer.err.Some? {
        steps := steps + [Logged(prefix + answer.err.value.message)];
      }
    }

    /** `InitOTel(serviceName, serviceVersion)`: a setup failure ends the process
        (no shutdown function, no later step, globals untouched); otherwise the
        pipeline is installed, the meter and instruments are created and the
        shutdown closure over the two providers is returned. */
    method InitOTel(serviceName: string, serviceVersion: string, env: Environment)
      returns (shutdown: Option<ShutdownFunc>)
      modifies this
      ensures steps == old(steps) + InitSteps(serviceName, serviceVersion, env)
      ensures exited <==> old(exited) || SetupFails(env)
      ensures shutdown.Some? <==> !SetupFails(env)
      ensures shutdown.Some? ==>
                var res := Resource(serviceName, serviceVersion);
                && shutdown.value == ShutdownFunc(TracerProviderFor(res), MeterProviderFor(res))
                && meter == Some(Meter(MeterName, serviceVersion))
                && httpRequestDuration == Assigned(env.httpAnswer, HTTPRequestDurationInstrument)
                && dbQueryDuration == Assigned(env.dbAnswer, DBQueryDurationInstrument)
                && processRSSBytes == Assigned(env.rssAnswer, ProcessRSSBytesInstrument)
      ensures shutdown.None? ==>
                && meter == old(meter) && httpRequestDuration == old(httpRequestDuration)
                && dbQueryDuration == old(dbQueryDuration) && processRSSBytes == old(processRSSBytes)
    {
      var ok := SetUpPipeline(serviceName, serviceVersion, env);
      if !ok {
        return None;
      }
      ghost var set_up := steps;
      shutdown := FinishInit(serviceName, serviceVersion, env);
      assert steps == set_up + FinishSteps(serviceVersion, env);
    }

    /** The part of `InitOTel` after the pipeline is in place: the meter, the
        instruments and the closing message; nothing here can end the process. */
    method FinishInit(serviceName: string, serviceVersion: string, env: Environment)
      returns (shutdown: Option<ShutdownFunc>)
      modifies this`steps, this`meter, this`httpRequestDuration, this`dbQueryDuration, this`processRSSBytes
      ensures var res := Resource(serviceName, serviceVersion);
              shutdown == Some(ShutdownFunc(TracerProviderFor(res), MeterProviderFor(res)))
      ensures steps == old(steps) + FinishSteps(serviceVersion, env)
      ensures meter == Some(Meter(MeterName, serviceVersion))
      ensures httpRequestDuration == Assigned(env.httpAnswer, HTTPRequestDurationInstrument)
      ensures dbQueryDuration == Assigned(env.dbAnswer, DBQueryDurationInstrument)
      ensures processRSSBytes == Assigned(env.rssAnswer, ProcessRSSBytesInstrument)
    {
      var res := Resource(serviceName, serviceVersion);
      meter := Some(Meter(MeterName, serviceVersion));
      steps := steps + [CreateMeter(Meter(MeterName, serviceVersion))];
      InitMetrics(env);
      steps := steps + [Printed(InitializedMessage)];
      shutdown := Some(ShutdownFunc(TracerProviderFor(res), MeterProviderFor(res)));
    }

    /** The part of `InitOTel` that can end the process: the resource, the two
        exporters and the two providers are created and installed in order, and
        the first failure is fatal. On success the propagator is installed too. */
    method SetUpPipeline(serviceName: string, serviceVersion: string, env: Environment) returns (ok: bool)
      modifies this`steps, this`exited
      ensures ok <==> !SetupFails(env)
      ensures exited <==> old(exited) || SetupFails(env)
      ensures ok ==> steps == old(steps) + SetupSteps(Resource(serviceName, serviceVersion))
      ensures !ok ==> steps == old(steps) + InitSteps(serviceName, serviceVersion, env)
    {
      var res := Resource(serviceName, serviceVersion);
      steps := steps + [CreateResource(res)];
      if env.resourceErr.Some? {
        Fatalf(ResourceFailurePrefix + env.resourceErr.value.message);
        InitStepsResourceFailure(serviceName, serviceVersion, env);
        return false;
      }

      steps := steps + [CreateTraceExporter(Endpoint, true)];
      if env.traceExporterErr.Some? {
        Fatalf(TraceExporterFailurePrefix + env.traceExporterErr.value.message);
        InitStepsTraceExporterFailure(serviceName, serviceVersion, env);
        return false;
      }
      steps := steps + [InstallTracerProvider(TracerProviderFor(res))];

      steps := steps + [CreateMetricExporter(Endpoint, true)];
      if env.metricExporterErr.Some? {
        Fatalf(MetricExporterFailurePrefix + env.metricExporterErr.value.message);
        InitStepsMetricExporterFailure(serviceName, serviceVersion, env);
        return false;
      }
      steps := steps + [InstallMeterProvider(MeterProviderFor(res))];

      steps := steps + [InstallTraceContextPropagator];
      return true;
    }

    /** `log.Fatalf`: writes the message and ends the process. */
    method Fatalf(message: string)
      modifies this`steps, this`exited
      ensures steps == old(steps) + [Fatal(message)] && exited
    {
      steps := steps + [Fatal(message)];
      exited := true;
    }

    /** Runs the shutdown closure with the providers' shutdown outcomes: both
        providers are always shut down, in order, and the result is always nil. */
    method Shutdown(f: ShutdownFunc, tracerErr: Option<Error>, meterErr: Option<Error>)
      returns (err: Option<Error>)
      modifies this
      ensures err == None
      ensures steps == old(steps) + ShutdownSteps(f, tracerErr, meterErr)
      ensures meter == old(meter) && httpRequestDuration == old(httpRequestDuration)
      ensures dbQueryDuration == old(dbQueryDuration) && processRSSBytes == old(processRSSBytes)
      ensures exited == old(exited)
    {
      steps := steps + [ShutdownTracerProvider(f.tracerProvider)];
      steps := steps + LogIfFailed(tracerErr, TracerShutdownFailurePrefix);
      steps := steps + [ShutdownMeterProvider(f.meterProvider)];
      steps := steps + LogIfFailed(meterErr, MeterShutdownFailurePrefix);
      return None;
    }
  }
}
