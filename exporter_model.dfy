/**
 * What Exporter.java does to one batch of spans, as functions of the spans. The class in
 * module AgentOt performs the same work step by step, with setters and a sink, and is proved
 * to append exactly BatchOutcome's items; module ExporterProperties proves what these
 * functions promise.
 */
module ExporterModel {
  import opened Wrappers
  import opened JavaRuntime
  import opened Telemetry
  import opened Spans

  /** java.net.URI as applyHttpRequestSpan and createTarget read it; `port` is -1 when absent. */
  datatype Uri = Uri(host: Option<string>, port: int, path: Option<string>)

  /**
   * Library code the exporter calls and that this model does not contain: `new URI(url)`,
   * with None for a URISyntaxException, and getFormattedDate's SimpleDateFormat rendering
   * of epoch milliseconds.
   */
  datatype Environment = Environment(parseUri: string -> Option<Uri>, formatDate: int -> string)

  // ----- Typed attribute lookup

  /** `attributes.get(key)` */
  function Get(attributes: Attributes, key: string): Option<AttributeValue> {
    if key in attributes then Some(attributes[key]) else None
  }

  /**
   * getString, for a span's and for an event's attributes alike: the value of a STRING
   * attribute, and null both for an absent attribute and for one of another type.
   */
  function GetString(attributes: Attributes, key: string): (r: Option<string>)
    ensures r.Some? <==> key in attributes && attributes[key].StringValue?
    ensures r.Some? ==> attributes[key] == StringValue(r.value)
  {
    match Get(attributes, key)
    case None => None
    case Some(v) => if v.StringValue? then Some(v.stringValue) else None
  }

  /** isNonNullLong */
  function IsNonNullLong(attributeValue: Option<AttributeValue>): (r: bool)
    ensures r <==> exists n: Int64 :: attributeValue == Some(LongValue(n))
  {
    if attributeValue.Some? && attributeValue.value.LongValue? then
      assert attributeValue == Some(LongValue(attributeValue.value.longValue));
      true
    else
      false
  }

  /** `Long.toString` of `http.status_code`, present only when that attribute is a LONG. */
  function StatusCodeText(attributes: Attributes): Option<string> {
    var httpStatusCode := Get(attributes, "http.status_code");
    if IsNonNullLong(httpStatusCode) then Some(Decimal(httpStatusCode.value.longValue)) else None
  }

  // ----- Correlation ids

  /** combine: the legacy hierarchical id of a span within a trace. */
  function Combine(traceId: string, spanId: SpanId): (id: string)
    ensures |id| == |traceId| + |spanId.lowerBase16| + 3
    ensures id[0] == '|' && id[1..|traceId| + 1] == traceId && id[|traceId| + 1] == '.'
    ensures id[|traceId| + 2..|id| - 1] == spanId.lowerBase16 && id[|id| - 1] == '.'
  {
    "|" + traceId + "." + spanId.lowerBase16 + "."
  }

  /** The id setContext returns for a span, which becomes its item's own id. */
  function OwnId(span: SpanData): string {
    Combine(span.traceId.lowerBase16, span.spanId)
  }

  /**
   * The context a fresh item gets when it is correlated under `parentSpanId` of trace
   * `traceId`: the operation id is the trace id, the parent id is set only for a valid parent.
   */
  function ChildContext(traceId: TraceId, parentSpanId: SpanId): OperationContext {
    OperationContext(
      Some(traceId.lowerBase16),
      if parentSpanId.isValid then Some(Combine(traceId.lowerBase16, parentSpanId)) else None)
  }

  /**
   * setContext, on the operation context of the item it is given: the operation id becomes
   * the trace id, the parent id is set only when the span's parent is valid (and is otherwise
   * left as it was), and the span's own id is returned.
   */
  function SetContext(span: SpanData, context: OperationContext): (r: (OperationContext, string))
    ensures r.0.id == Some(span.traceId.lowerBase16)
    ensures r.0.parentId ==
              if span.parentSpanId.isValid then Some(Combine(span.traceId.lowerBase16, span.parentSpanId))
              else context.parentId
    ensures r.1 == OwnId(span)
  {
    var traceId := span.traceId.lowerBase16;
    var id := Combine(traceId, span.spanId);
    var withId := context.(id := Some(traceId));
    var parentSpanId := span.parentSpanId;
    if parentSpanId.isValid then (withId.(parentId := Some(Combine(traceId, parentSpanId))), id) else (withId, id)
  }

  // ----- Severity

  /**
   * toSeverityLevel. None stands for the exception that a Java `switch` on a null String
   * throws.
   */
  function ToSeverityLevel(level: Option<string>): (r: Option<SeverityLevel>)
    ensures r.None? <==> level.None?
    ensures r == Some(Critical) <==> level == Some("FATAL")
    ensures r == Some(Error) <==> level == Some("ERROR")
    ensures r == Some(Warning) <==> level == Some("WARN")
    ensures r == Some(Information) <==> level == Some("INFO")
    ensures r == Some(Verbose) <==> level.Some? && level.value !in {"FATAL", "ERROR", "WARN", "INFO"}
    ensures level.Some? && level.value in {"DEBUG", "TRACE", "ALL"} ==> r == Some(Verbose)
  {
    match level
    case None => None
    case Some(token) =>
      if token == "FATAL" then Some(Critical)
      else if token == "ERROR" then Some(Error)
      else if token == "WARN" then Some(Warning)
      else if token == "INFO" then Some(Information)
      else if token == "DEBUG" || token == "TRACE" || token == "ALL" then Some(Verbose)
      else Some(Verbose)
  }

  // ----- Classification

  datatype DependencyKind = InProc | Http | Database | Generic

  datatype Category = LogSpan | DependencySpan(dependency: DependencyKind) | RequestSpan

  /** exportRemoteDependency's tests for a CLIENT span, in their order. */
  function ClientDependencyKind(span: SpanData): DependencyKind {
    if "http.method" in span.attributes then Http
    else if span.name == "database.query" || span.name == "redis.query" then Database
    else Generic
  }

  /** export(SpanData)'s dispatch; None is the UnsupportedOperationException for any other kind. */
  function Classify(span: SpanData): Option<Category> {
    match span.kind
    case Internal => Some(if span.name == "log.message" then LogSpan else DependencySpan(InProc))
    case Client => Some(DependencySpan(ClientDependencyKind(span)))
    case Server => Some(RequestSpan)
    case _ => None
  }

  // ----- Requests and dependencies

  const HttpDependencyType := "Http (tracked component)"

  function StartMillis(span: SpanData): int {
    NanosToMillis(span.startEpochNanos)
  }

  /** `toMillis(end - start)`, the subtraction wrapping as a long. */
  function DurationMillis(span: SpanData): int {
    NanosToMillis(SubtractLong(span.endEpochNanos, span.startEpochNanos))
  }

  /** `properties` with the status description recorded, when the status has one. */
  function WithStatus(properties: map<string, string>, status: Status): map<string, string> {
    if status.description.Some? then properties["statusDescription" := status.description.value] else properties
  }

  /** The Request a SERVER span becomes. */
  function RequestFor(span: SpanData): RequestTelemetry {
    RequestTelemetry(
      name := Some(span.name),
      url := GetString(span.attributes, "http.url"),
      responseCode := StatusCodeText(span.attributes),
      id := Some(OwnId(span)),
      timestamp := Some(StartMillis(span)),
      duration := Some(DurationMillis(span)),
      success := Some(span.status.isOk),
      context := ChildContext(span.traceId, span.parentSpanId),
      properties := WithStatus(map[], span.status))
  }

  /** The `http.url` of a span, parsed; None when it is absent or does not parse. */
  function ParsedUrl(env: Environment, span: SpanData): Option<Uri> {
    var url := GetString(span.attributes, "http.url");
    if url.Some? then env.parseUri(url.value) else None
  }

  /**
   * The name of an HTTP dependency: "method path" once the URL parses, "method url" when
   * both are strings and it does not, and no name otherwise.
   */
  function HttpName(env: Environment, span: SpanData): Option<string> {
    var httpMethod := GetString(span.attributes, "http.method");
    var url := GetString(span.attributes, "http.url");
    match ParsedUrl(env, span)
    case Some(uri) =>
      if IsNullOrEmpty(uri.path) then Some(ConcatForm(httpMethod) + " /")
      else Some(ConcatForm(httpMethod) + " " + uri.path.value)
    case None => if httpMethod.Some? && url.Some? then Some(httpMethod.value + " " + url.value) else None
  }

  /** `properties` with the "Method" and "URI" kept for legacy consumers of an HTTP dependency. */
  function WithHttpProperties(properties: map<string, string>, span: SpanData): map<string, string> {
    var httpMethod := GetString(span.attributes, "http.method");
    var url := GetString(span.attributes, "http.url");
    var withMethod := if httpMethod.Some? then properties["Method" := httpMethod.value] else properties;
    if url.Some? then withMethod["URI" := url.value] else withMethod
  }

  /** The dependency type of a database span, from its `span.type`. */
  function DatabaseType(spanType: Option<string>): Option<string> {
    match spanType
    case None => None
    case Some(t) => Some(if t == "sql" then "SQL" else if t == "redis" then "Redis" else t)
  }

  function DependencyName(env: Environment, span: SpanData, kind: DependencyKind): Option<string> {
    match kind
    case InProc => Some(span.name)
    case Http => HttpName(env, span)
    case Database => GetString(span.attributes, "db.type")
    case Generic => Some(span.name)
  }

  function DependencyType(span: SpanData, kind: DependencyKind): Option<string> {
    match kind
    case InProc => Some("InProc")
    case Http => Some(HttpDependencyType)
    case Database => DatabaseType(GetString(span.attributes, "span.type"))
    case Generic => None
  }

  /**
   * createTarget: the bare host for ports 80, 443 and -1 (none); for any other port the
   * host, ':' and the port in Long.toString's canonical form, which reads back as the port.
   */
  function CreateTarget(uri: Uri): (target: Option<string>)
    ensures uri.port == 80 || uri.port == 443 || uri.port == -1 ==> target == uri.host
    ensures uri.port != 80 && uri.port != 443 && uri.port != -1 ==>
              var host := ConcatForm(uri.host);
              && target.Some? && |target.value| > |host| && target.value[..|host|] == host && target.value[|host|] == ':'
              && CanonicalDecimal(target.value[|host| + 1..]) && ParseDecimal(target.value[|host| + 1..]) == Some(uri.port)
  {
    if uri.port != 80 && uri.port != 443 && uri.port != -1 then
      var host := ConcatForm(uri.host);
      var t := host + ":" + Decimal(uri.port);
      assert t[..|host|] == host;
      assert t[|host| + 1..] == Decimal(uri.port);
      DecimalRoundTrip(uri.port);
      DecimalCanonical(uri.port);
      Some(ConcatForm(uri.host) + ":" + Decimal(uri.port))
    else
      uri.host
  }

  function DependencyTarget(env: Environment, span: SpanData, kind: DependencyKind): Option<string> {
    if kind == Http && ParsedUrl(env, span).Some? then CreateTarget(ParsedUrl(env, span).value) else None
  }

  function DependencyCommandName(span: SpanData, kind: DependencyKind): Option<string> {
    match kind
    case Http => GetString(span.attributes, "http.url")
    case Database => GetString(span.attributes, "resource.name")
    case _ => None
  }

  function DependencyProperties(span: SpanData, kind: DependencyKind): map<string, string> {
    WithStatus(if kind == Http then WithHttpProperties(map[], span) else map[], span.status)
  }

  /** The RemoteDependency an INTERNAL or CLIENT span of the given subtype becomes. */
  function DependencyFor(env: Environment, span: SpanData, kind: DependencyKind): RemoteDependencyTelemetry {
    RemoteDependencyTelemetry(
      name := DependencyName(env, span, kind),
      dependencyType := DependencyType(span, kind),
      target := DependencyTarget(env, span, kind),
      commandName := DependencyCommandName(span, kind),
      resultCode := if kind == Http then StatusCodeText(span.attributes) else None,
      id := Some(OwnId(span)),
      timestamp := Some(StartMillis(span)),
      duration := Some(DurationMillis(span)),
      success := Some(span.status.isOk),
      context := ChildContext(span.traceId, span.parentSpanId),
      properties := DependencyProperties(span, kind))
  }

  // ----- Log records: traces and exceptions

  /** The properties setProperties adds to a log record's existing `properties`. */
  function LoggerProperties(env: Environment, properties: map<string, string>, timeEpochNanos: Int64,
                            level: Option<string>, loggerName: Option<string>): map<string, string> {
    var stamped := properties["SourceType" := "Logger"]["TimeStamp" := env.formatDate(NanosToMillis(timeEpochNanos))];
    var leveled := if level.Some? then stamped["LoggingLevel" := level.value] else stamped;
    if loggerName.Some? then leveled["LoggerName" := loggerName.value] else leveled
  }

  /** The "Logger Message" property of an exception record (kept only for a non-null message). */
  function LoggerMessage(message: Option<string>): map<string, string> {
    if message.Some? then map["Logger Message" := message.value] else map[]
  }

  /** What trackTrace hands to the client; None when the level is null and toSeverityLevel throws. */
  function TraceFor(env: Environment, message: Option<string>, timeEpochNanos: Int64, level: Option<string>,
                    loggerName: Option<string>, traceId: TraceId, parentSpanId: SpanId): Option<TraceTelemetry> {
    match ToSeverityLevel(level)
    case None => None
    case Some(severity) =>
      Some(TraceTelemetry(message, Some(severity), ChildContext(traceId, parentSpanId),
                 LoggerProperties(env, map[], timeEpochNanos, level, loggerName)))
  }

  /** What trackException hands to the client; None when the level is null. */
  function ExceptionFor(env: Environment, message: Option<string>, timeEpochNanos: Int64, level: Option<string>,
                        loggerName: Option<string>, errorStack: string, traceId: TraceId,
                        parentSpanId: SpanId): Option<ExceptionTelemetry> {
    match ToSeverityLevel(level)
    case None => None
    case Some(severity) =>
      Some(ExceptionTelemetry(Some(errorStack), Some(severity), None, ChildContext(traceId, parentSpanId),
                     LoggerProperties(env, LoggerMessage(message), timeEpochNanos, level, loggerName)))
  }

  /**
   * The record for a log message whose level, logger name and stack are read from
   * `attributes`: an Exception when there is an `error.stack` string, a Trace otherwise.
   */
  function LogRecordFor(env: Environment, message: Option<string>, timeEpochNanos: Int64, attributes: Attributes,
                        traceId: TraceId, parentSpanId: SpanId): Option<TelemetryItem> {
    var level := GetString(attributes, "level");
    var loggerName := GetString(attributes, "loggerName");
    var errorStack := GetString(attributes, "error.stack");
    if errorStack.None? then
      match TraceFor(env, message, timeEpochNanos, level, loggerName, traceId, parentSpanId)
      case None => None
      case Some(t) => Some(TraceItem(t))
    else
      match ExceptionFor(env, message, timeEpochNanos, level, loggerName, errorStack.value, traceId, parentSpanId)
      case None => None
      case Some(t) => Some(ExceptionItem(t))
  }

  /** The record one timed event of `span` becomes, parented on the span itself. */
  function EventRecordFor(env: Environment, span: SpanData, event: TimedEvent): Option<TelemetryItem> {
    LogRecordFor(env, Some(event.name), event.epochNanos, event.attributes, span.traceId, span.spanId)
  }

  /** The extra Exception trackExceptionIfNeeded emits for a span with an `error.stack` string. */
  function ExceptionIfNeeded(span: SpanData, telemetry: TelemetryItem, id: string): seq<TelemetryItem> {
    var errorStack := GetString(span.attributes, "error.stack");
    if errorStack.Some? then
      [ExceptionItem(ExceptionTelemetry(Some(errorStack.value), None, Some(NanosToMillis(span.endEpochNanos)),
                                        OperationContext(telemetry.Context().id, Some(id)), map[]))]
    else
      []
  }

  // ----- Outcomes

  /** The items handed to the client, in order, and whether the work finished without an exception. */
  datatype Outcome = Outcome(items: seq<TelemetryItem>, ok: bool)

  /** Run `next` after `first`, unless `first` threw. */
  function AndThen(first: Outcome, next: Outcome): Outcome {
    if first.ok then Outcome(first.items + next.items, next.ok) else first
  }

  /** Tracking one item, or throwing before anything is tracked. */
  function Emit(item: Option<TelemetryItem>): Outcome {
    match item
    case None => Outcome([], false)
    case Some(t) => Outcome([t], true)
  }

  /** exportLogSpan */
  function LogSpanOutcome(env: Environment, span: SpanData): Outcome {
    Emit(LogRecordFor(env, GetString(span.attributes, "message"), span.startEpochNanos, span.attributes,
                      span.traceId, span.parentSpanId))
  }

  /** exportEvents over the first |events| events: one record per event, stopping at the first that throws. */
  function EventsOutcome(env: Environment, span: SpanData, events: seq<TimedEvent>): Outcome
    decreases |events|
  {
    if events == [] then Outcome([], true)
    else AndThen(EventsOutcome(env, span, events[..|events| - 1]), Emit(EventRecordFor(env, span, events[|events| - 1])))
  }

  /** A Request's or a dependency's item, its extra exception, then its events. */
  function PrimaryOutcome(env: Environment, span: SpanData, telemetry: TelemetryItem): Outcome {
    AndThen(Outcome([telemetry] + ExceptionIfNeeded(span, telemetry, OwnId(span)), true),
            EventsOutcome(env, span, span.timedEvents))
  }

  /** export(SpanData) */
  function SpanOutcome(env: Environment, span: SpanData): Outcome {
    match Classify(span)
    case None => Outcome([], false)
    case Some(LogSpan) => LogSpanOutcome(env, span)
    case Some(RequestSpan) => PrimaryOutcome(env, span, RequestItem(RequestFor(span)))
    case Some(DependencySpan(kind)) => PrimaryOutcome(env, span, DependencyItem(DependencyFor(env, span, kind)))
  }

  /** export(List<SpanData>) over a batch: span by span, abandoning the rest at the first exception. */
  function BatchOutcome(env: Environment, spans: seq<SpanData>): Outcome
    decreases |spans|
  {
    if spans == [] then Outcome([], true)
    else AndThen(BatchOutcome(env, spans[..|spans| - 1]), SpanOutcome(env, spans[|spans| - 1]))
  }

  function ResultCodeOf(outcome: Outcome): ResultCode {
    if outcome.ok then Success else FailedNotRetryable
  }
}
