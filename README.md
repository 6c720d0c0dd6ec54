# Application Insights span exporter and trace filter, in Dafny

This project models two pieces of the Application Insights Java SDK and proves what they promise.

- **Exporter** (`agent-ot/.../agentot/Exporter.java`) is the OpenTelemetry span exporter. `export` walks a
  batch of spans in order and turns each one into telemetry:
  - a SERVER span becomes a Request;
  - a CLIENT span becomes a RemoteDependency, of the HTTP, database or generic kind;
  - an INTERNAL span becomes an in-process dependency, unless it is named "log.message", in which case
    it becomes a log record (a Trace, or an Exception when it has a stack).

  Each Request and dependency gets its correlation ids. After it come an extra Exception for an
  `error.stack` attribute and one Trace or Exception per timed event. Everything goes to a
  `TelemetryClient`. A span of any other kind, or a log record with a null level, throws. The rest of
  the batch is then abandoned and the result is FAILED_NOT_RETRYABLE, while the items already handed to
  the client stay there.
- **TraceTelemetryFilter** (`core/.../processor/TraceTelemetryFilter.java`) is a telemetry processor.
  It drops trace records whose severity is below a threshold. A configuration string sets the
  threshold.

Modules:

- `Wrappers`: the Option type.
- `JavaRuntime`: the Java library behaviour the code relies on:
  - `long` subtraction with wrap-around;
  - `TimeUnit.NANOSECONDS.toMillis`, which truncates toward zero;
  - `Long.toString`;
  - `String.trim` and `toUpperCase`;
  - `null` rendering as "null" in string concatenation.
- `Telemetry`: the telemetry items and severity levels. `TelemetryClient` is a class whose `items`
  sequence is the sink.
- `Spans`: the SpanData the exporter receives.
- `ExporterModel`: what the exporter does to a span and to a batch, as functions. Exceptions are an
  `Outcome` whose `ok` is false, and `items` holds what was tracked before the throw.
- `ExporterProperties`: lemmas about those functions.
- `AgentOt`: class `Exporter`. Its methods build each item setter by setter, in the source's order,
  and are proved to append exactly the items the `ExporterModel` functions describe.
- `Processor`: class `TraceTelemetryFilter`, its `process` predicate and its `setFromTraceLevel`
  method.

The exporter calls two pieces of library code this model does not contain: `java.net.URI` and a
`SimpleDateFormat` date rendering. They are the two functions of an `Environment` value given to the
`Exporter` constructor. A URI is read only through its host, port and path.

## Model

Paths are relative to the repository root. `Exporter.java` is
`agent-ot/exporter/src/main/java/com/microsoft/applicationinsights/agentot/Exporter.java` and
`TraceTelemetryFilter.java` is
`core/src/main/java/com/microsoft/applicationinsights/internal/processor/TraceTelemetryFilter.java`.

| member | source | states |
|---|---|---|
| JavaRuntime.SubtractLong | agent-ot/exporter/src/main/java/com/microsoft/applicationinsights/agentot/Exporter.java:115 | `end - start` as a Java long: the exact difference when it fits in 64 bits, otherwise shifted by 2^64 |
| JavaRuntime.NanosToMillis | agent-ot/exporter/src/main/java/com/microsoft/applicationinsights/agentot/Exporter.java:114-115 | toMillis truncates toward zero: the result has the sign of the input, and its magnitude is the number of whole milliseconds in the input's magnitude |
| JavaRuntime.DecimalRoundTrip | agent-ot/exporter/src/main/java/com/microsoft/applicationinsights/agentot/Exporter.java:101 | the decimal rendering of a long (Long.toString) reads back as the same number |
| JavaRuntime.DecimalCanonical | agent-ot/exporter/src/main/java/com/microsoft/applicationinsights/agentot/Exporter.java:101 | Long.toString writes the canonical form: shortest digits, no leading zero, a minus sign only before a non-zero value |
| JavaRuntime.CanonicalIsDecimal | agent-ot/exporter/src/main/java/com/microsoft/applicationinsights/agentot/Exporter.java:101 | the canonical form of a number is unique: any canonical text is exactly the rendering of the number it reads back as |
| JavaRuntime.TrimSurrounded | core/src/main/java/com/microsoft/applicationinsights/internal/processor/TraceTelemetryFilter.java:88 | trim removes exactly the characters up to U+0020 around a string whose ends are not such characters |
| JavaRuntime.ToUpperCase | core/src/main/java/com/microsoft/applicationinsights/internal/processor/TraceTelemetryFilter.java:89 | upper-casing keeps the length; each letter a-z becomes the capital 32 code points below it, every other character is kept, and no lower-case letter a-z is left |
| JavaRuntime.UpperCaseIdempotent | core/src/main/java/com/microsoft/applicationinsights/internal/processor/TraceTelemetryFilter.java:89 | upper-casing an upper-cased string changes nothing |
| ExporterModel.GetString | agent-ot/exporter/src/main/java/com/microsoft/applicationinsights/agentot/Exporter.java:330-352 | a value exactly when the attribute exists and is STRING-typed, and then it is that string; missing and other-typed attributes both give null |
| ExporterModel.Combine | agent-ot/exporter/src/main/java/com/microsoft/applicationinsights/agentot/Exporter.java:381-384 | the combined id is a bar, the trace id, a dot, the span id and a final dot, three characters longer than the two ids |
| ExporterModel.IsNonNullLong | agent-ot/exporter/src/main/java/com/microsoft/applicationinsights/agentot/Exporter.java:386-388 | an attribute counts as a long exactly when it is present and holds a LONG value |
| ExporterModel.SetContext | agent-ot/exporter/src/main/java/com/microsoft/applicationinsights/agentot/Exporter.java:370-379 | the operation id becomes the trace id; the parent id becomes combine(trace, parent) only for a valid parent and is otherwise left as it was; the returned id is combine(trace, span id) |
| ExporterModel.ToSeverityLevel | agent-ot/exporter/src/main/java/com/microsoft/applicationinsights/agentot/Exporter.java:402-420 | FATAL, ERROR, WARN and INFO map to Critical, Error, Warning and Information, each in both directions; DEBUG, TRACE, ALL and every other non-null token map to Verbose; a null level throws |
| ExporterProperties.CombineRoundTrip | agent-ot/exporter/src/main/java/com/microsoft/applicationinsights/agentot/Exporter.java:381-384 | the combined id (a bar, the trace id, a dot, the span id, a dot) reads back into the trace id and the span id, for any trace id without '.' |
| ExporterProperties.CombineInjective | agent-ot/exporter/src/main/java/com/microsoft/applicationinsights/agentot/Exporter.java:381-384 | two combined ids are equal only when their trace ids and span ids are |
| ExporterProperties.EventsStopAtFailure | agent-ot/exporter/src/main/java/com/microsoft/applicationinsights/agentot/Exporter.java:188-202 | once an event throws, the later events add nothing |
| ExporterProperties.BatchStopsAtFailure | agent-ot/exporter/src/main/java/com/microsoft/applicationinsights/agentot/Exporter.java:65-76 | once a span throws, the later spans of the batch add nothing |
| ExporterProperties.BatchAllOk | agent-ot/exporter/src/main/java/com/microsoft/applicationinsights/agentot/Exporter.java:65-71 | a batch in which no span throws tracks every span's items in order and succeeds |
| ExporterProperties.BatchCutoff | agent-ot/exporter/src/main/java/com/microsoft/applicationinsights/agentot/Exporter.java:65-76 | at the first span that throws, the batch fails with exactly the earlier spans' items plus what that span tracked before throwing |
| ExporterProperties.BatchSucceedsIff | agent-ot/exporter/src/main/java/com/microsoft/applicationinsights/agentot/Exporter.java:65-76 | export returns SUCCESS exactly when no span of the batch throws |
| ExporterProperties.BatchKeepsPrefix | agent-ot/exporter/src/main/java/com/microsoft/applicationinsights/agentot/Exporter.java:65-76 | the items tracked for the first k spans are a prefix of what the whole batch tracks, however it ends |
| ExporterProperties.RequestThenUnsupported | agent-ot/exporter/src/main/java/com/microsoft/applicationinsights/agentot/Exporter.java:78-93 | a SERVER span with no stack and no events, then a PRODUCER span: the batch fails having tracked only the first span's Request |
| ExporterProperties.LoggerPropertiesKeys | agent-ot/exporter/src/main/java/com/microsoft/applicationinsights/agentot/Exporter.java:235-245 | SourceType "Logger" and the formatted TimeStamp are always present; LoggingLevel and LoggerName are present exactly when non-null; other properties are kept |
| ExporterProperties.LogRecordShape | agent-ot/exporter/src/main/java/com/microsoft/applicationinsights/agentot/Exporter.java:204-233 | a record exists exactly when the level is non-null; it is a Trace exactly when there is no error.stack string and an Exception with that stack otherwise; it is parented on the given span and carries its message, severity and Logger properties; an Exception record has no timestamp of its own |
| ExporterProperties.LoggerMessageKept | agent-ot/exporter/src/main/java/com/microsoft/applicationinsights/agentot/Exporter.java:230 | an exception record's "Logger Message" property is its non-null message |
| ExporterProperties.EventsOkIff | agent-ot/exporter/src/main/java/com/microsoft/applicationinsights/agentot/Exporter.java:188-202 | the events finish without throwing exactly when every event has a string level |
| ExporterProperties.EventsOneEach | agent-ot/exporter/src/main/java/com/microsoft/applicationinsights/agentot/Exporter.java:188-202 | when no event throws, event i yields exactly record i, in order |
| ExporterProperties.EventsParentedOnSpan | agent-ot/exporter/src/main/java/com/microsoft/applicationinsights/agentot/Exporter.java:196-199 | every event record has the span's trace as operation id and combine(trace, span id) as parent, the parent only for a valid span id |
| ExporterProperties.DispatchTable | agent-ot/exporter/src/main/java/com/microsoft/applicationinsights/agentot/Exporter.java:78-93 | INTERNAL spans are log spans exactly when named log.message and in-process dependencies otherwise, SERVER spans are Requests, CLIENT spans are the other dependencies, and no other kind is exported, each in both directions |
| ExporterProperties.ClientDispatch | agent-ot/exporter/src/main/java/com/microsoft/applicationinsights/agentot/Exporter.java:140-146 | a CLIENT span is an HTTP dependency exactly when it has http.method, else a database dependency exactly when named database.query or redis.query, else a generic one |
| ExporterProperties.UnsupportedKind | agent-ot/exporter/src/main/java/com/microsoft/applicationinsights/agentot/Exporter.java:78-93 | a span is rejected exactly when its kind is not INTERNAL, CLIENT or SERVER, and it then throws before tracking anything |
| ExporterProperties.LogSpanRecord | agent-ot/exporter/src/main/java/com/microsoft/applicationinsights/agentot/Exporter.java:173-185 | a log span yields at most one record, fails exactly when its level is null, and yields nothing for its events or its stack beyond that record |
| ExporterProperties.LogSpanErrorExample | agent-ot/exporter/src/main/java/com/microsoft/applicationinsights/agentot/Exporter.java:173-185 | a log span at level ERROR yields exactly one record of severity Error: a Trace without a stack, an Exception with one |
| ExporterProperties.PrimaryShape | agent-ot/exporter/src/main/java/com/microsoft/applicationinsights/agentot/Exporter.java:354-364 | a Request or dependency comes first; an error.stack string adds one Exception parented on the primary item's id, with its operation id and the span's end as timestamp; then come the events' records |
| ExporterProperties.ServerRequest | agent-ot/exporter/src/main/java/com/microsoft/applicationinsights/agentot/Exporter.java:95-128 | a SERVER span's Request has its name, a url exactly for a string http.url, a response code exactly for a LONG http.status_code and reading back as it, its own id and context, toMillis timing, success, and a statusDescription exactly when the status has a description, holding that description, and no other property; the response code is in canonical decimal form |
| ExporterProperties.ResponseCodeExample | agent-ot/exporter/src/main/java/com/microsoft/applicationinsights/agentot/Exporter.java:99-102 | a LONG status code 200 gives the response code "200" |
| ExporterProperties.InProcDependency | agent-ot/exporter/src/main/java/com/microsoft/applicationinsights/agentot/Exporter.java:133-135 | an INTERNAL span that is not a log span is a dependency of type "InProc" named after the span |
| ExporterProperties.HttpDependency | agent-ot/exporter/src/main/java/com/microsoft/applicationinsights/agentot/Exporter.java:247-304 | a CLIENT span with an http.method key, whatever its name, is an HTTP dependency with the HTTP dependency type; its command name is the url whether or not it parses; "URI" and "Method" are present exactly when the url and the method are strings, holding them, and no property besides those and statusDescription exists; its result code exists exactly for a LONG status code and is that number in canonical decimal form; if the url does not parse there is no target and the name is "method url"; if it does, the target is createTarget and the name is "method path" or "method /" |
| ExporterProperties.DatabaseDependency | agent-ot/exporter/src/main/java/com/microsoft/applicationinsights/agentot/Exporter.java:306-328 | a CLIENT database.query or redis.query span without http.method is named by db.type, has resource.name as command, no target, and its span.type as type with sql written SQL and redis written Redis |
| ExporterProperties.GenericDependency | agent-ot/exporter/src/main/java/com/microsoft/applicationinsights/agentot/Exporter.java:144-146 | any other CLIENT span is a dependency carrying only the span's name |
| ExporterProperties.SpanItemsInTrace | agent-ot/exporter/src/main/java/com/microsoft/applicationinsights/agentot/Exporter.java:370-379 | every item a span yields has the span's trace id as operation id |
| ExporterProperties.DependencyShared | agent-ot/exporter/src/main/java/com/microsoft/applicationinsights/agentot/Exporter.java:149-164 | every dependency has the span's own id and context, toMillis of the start as timestamp, toMillis of the wrapped end minus start as duration, the status as success, and a statusDescription exactly when the status has a description, holding it; a non-HTTP dependency has no other property |
| ExporterProperties.PrimaryIds | agent-ot/exporter/src/main/java/com/microsoft/applicationinsights/agentot/Exporter.java:149-150 | a Request or dependency has combine(trace, span id) as id, and a parent id only for a valid parent |
| ExporterModel.CreateTarget | agent-ot/exporter/src/main/java/com/microsoft/applicationinsights/agentot/Exporter.java:390-396 | the target is the bare host for ports 80, 443 and -1, and otherwise the host, ':' and the port in canonical decimal form, which reads back as the URI's port |
| ExporterProperties.HttpExample | agent-ot/exporter/src/main/java/com/microsoft/applicationinsights/agentot/Exporter.java:289-294 | GET on a url with host example.com, port 8080 and path /path gives the name "GET /path" and the target "example.com:8080" |
| ExporterProperties.HttpsExample | agent-ot/exporter/src/main/java/com/microsoft/applicationinsights/agentot/Exporter.java:390-396 | on port 443 with an empty path the target has no port and the name is "GET /" |
| ExporterProperties.DurationTruncates | agent-ot/exporter/src/main/java/com/microsoft/applicationinsights/agentot/Exporter.java:115 | for non-negative times with end >= start, the duration is the elapsed time in whole milliseconds |
| Telemetry.TelemetryClient.Track | agent-ot/exporter/src/main/java/com/microsoft/applicationinsights/agentot/Exporter.java:123 | track appends its item to the sink |
| Telemetry.TelemetryClient.TrackTrace | agent-ot/exporter/src/main/java/com/microsoft/applicationinsights/agentot/Exporter.java:215 | trackTrace appends its trace to the sink |
| Telemetry.TelemetryClient.TrackException | agent-ot/exporter/src/main/java/com/microsoft/applicationinsights/agentot/Exporter.java:232 | trackException appends its exception to the sink |
| AgentOt.Exporter.constructor | agent-ot/exporter/src/main/java/com/microsoft/applicationinsights/agentot/Exporter.java:60-62 | the exporter holds the client it is given |
| AgentOt.Exporter.Export | agent-ot/exporter/src/main/java/com/microsoft/applicationinsights/agentot/Exporter.java:64-76 | the sink gains exactly the batch's items, in order, up to the first exception; the result is SUCCESS exactly when nothing threw |
| AgentOt.Exporter.ExportSpan | agent-ot/exporter/src/main/java/com/microsoft/applicationinsights/agentot/Exporter.java:78-93 | the sink gains the span's items by its kind and name, and the call fails exactly for an unsupported kind or a throwing record |
| AgentOt.Exporter.ExportRequest | agent-ot/exporter/src/main/java/com/microsoft/applicationinsights/agentot/Exporter.java:95-128 | the sink gains the Request, the optional extra Exception and the events' records |
| AgentOt.Exporter.ExportRemoteDependency | agent-ot/exporter/src/main/java/com/microsoft/applicationinsights/agentot/Exporter.java:130-171 | the sink gains the in-process, HTTP, database or generic dependency chosen in that order, the optional extra Exception and the events' records |
| AgentOt.Exporter.ExportLogSpan | agent-ot/exporter/src/main/java/com/microsoft/applicationinsights/agentot/Exporter.java:173-185 | the sink gains the span's one log record, or nothing when its level is null |
| AgentOt.Exporter.ExportEvents | agent-ot/exporter/src/main/java/com/microsoft/applicationinsights/agentot/Exporter.java:187-202 | the sink gains one record per event, in order, up to the first event that throws |
| AgentOt.Exporter.TrackTrace | agent-ot/exporter/src/main/java/com/microsoft/applicationinsights/agentot/Exporter.java:204-216 | the sink gains the trace for the message, or nothing and a failure for a null level |
| AgentOt.Exporter.TrackException | agent-ot/exporter/src/main/java/com/microsoft/applicationinsights/agentot/Exporter.java:218-233 | the sink gains the exception for the stack, or nothing and a failure for a null level |
| AgentOt.Exporter.SetProperties | agent-ot/exporter/src/main/java/com/microsoft/applicationinsights/agentot/Exporter.java:235-245 | the properties become the logger properties whose keys LoggerPropertiesKeys describes |
| AgentOt.Exporter.ApplyHttpRequestSpan | agent-ot/exporter/src/main/java/com/microsoft/applicationinsights/agentot/Exporter.java:247-304 | the type becomes the HTTP type; the name, target, command name and result code change only as HttpDependency describes; "Method" and "URI" are added; no other field changes |
| AgentOt.Exporter.ApplyDatabaseQuerySpan | agent-ot/exporter/src/main/java/com/microsoft/applicationinsights/agentot/Exporter.java:306-328 | name, command name and type change only for a present db.type, resource.name and span.type, and nothing else changes |
| AgentOt.Exporter.TrackExceptionIfNeeded | agent-ot/exporter/src/main/java/com/microsoft/applicationinsights/agentot/Exporter.java:354-364 | the sink gains the extra Exception exactly when the span has an error.stack string |
| Processor.LevelNamed | core/src/main/java/com/microsoft/applicationinsights/internal/processor/TraceTelemetryFilter.java:92-98 | a name stands for a threshold exactly when it is that threshold's configuration name |
| Processor.LevelNameRoundTrip | core/src/main/java/com/microsoft/applicationinsights/internal/processor/TraceTelemetryFilter.java:92-98 | TRACE, INFO, WARN, ERROR and CRITICAL name Verbose, Information, Warning, Error and Critical, one name each |
| Processor.AfterSet | core/src/main/java/com/microsoft/applicationinsights/internal/processor/TraceTelemetryFilter.java:86-111 | a call throws exactly for a null argument or a name that is neither OFF nor known, and then leaves Verbose; a known name sets its threshold; OFF keeps the old one; a set threshold never becomes null |
| Processor.NameIgnoresCaseAndBlanks | core/src/main/java/com/microsoft/applicationinsights/internal/processor/TraceTelemetryFilter.java:88-98 | any spelling of a threshold's name, in any case and with blanks around it, sets that threshold |
| Processor.OffKeepsThreshold | core/src/main/java/com/microsoft/applicationinsights/internal/processor/TraceTelemetryFilter.java:89-90 | OFF, in any case and with blanks around it, leaves the threshold unchanged |
| Processor.ThresholdNeverCleared | core/src/main/java/com/microsoft/applicationinsights/internal/processor/TraceTelemetryFilter.java:86-111 | no series of calls brings a set threshold back to null |
| Processor.TraceTelemetryFilter.constructor | core/src/main/java/com/microsoft/applicationinsights/internal/processor/TraceTelemetryFilter.java:51-54 | a new filter has no threshold |
| Processor.TraceTelemetryFilter.Process | core/src/main/java/com/microsoft/applicationinsights/internal/processor/TraceTelemetryFilter.java:56-84 | null and non-trace items are kept; with no threshold every trace is dropped; otherwise a trace is kept exactly when its message is null or empty, its severity is null, or its severity is at least the threshold |
| Processor.TraceTelemetryFilter.SetFromTraceLevel | core/src/main/java/com/microsoft/applicationinsights/internal/processor/TraceTelemetryFilter.java:86-111 | the new threshold and whether the call threw are those AfterSet gives for the old threshold |
| Processor.RaisingThresholdDropsMore | core/src/main/java/com/microsoft/applicationinsights/internal/processor/TraceTelemetryFilter.java:79 | a filter with a higher threshold keeps nothing that one with a lower threshold drops |
| Processor.VerboseKeepsEverything | core/src/main/java/com/microsoft/applicationinsights/internal/processor/TraceTelemetryFilter.java:79 | a Verbose threshold keeps every item |

## Left out

- Logging: `System.out.println` of each span, the slf4j logger and InternalLogger. They have no effect on
  what is tracked or returned.
- Delivery: `TelemetryClient` only appends to its `items`. Sending and buffering are not part of this
  model.
- `java.net.URI` parsing is the `parseUri` function of the `Environment`. It gives a host, a port
  (-1 when absent) and a path, or nothing for a URISyntaxException.
- `getFormattedDate` is the `formatDate` function of the `Environment`. Its locale and time zone are
  not modelled.
- `Exceptions.minimalParse` is not part of this model. An Exception item keeps the raw stack string.
- `TraceId.toLowerBase16`, `SpanId.toLowerBase16` and `SpanId.isValid` are given values of the span:
  a hex string, and a hex string with a validity flag.
- The batch's `catch (Throwable)` is modelled only for the two exceptions the code can raise from its
  own logic: an unsupported span kind, and a null level given to `toSeverityLevel`.
- `shutdown()` has an empty body and is not modelled.
- Telemetry fields the exporter never sets are not modelled. A field it sets is an Option, and None
  means the SDK's default. The timed Date and Duration objects are their millisecond counts.
- JavaRuntime.ToUpperCase: assumes a default locale whose upper-casing maps a-z to A-Z and changes
  nothing else. `String.toUpperCase()` uses the JVM's default locale: under a Turkish or Azerbaijani
  locale 'i' becomes 'İ' (U+0130), so "info" and "critical" match no level, throw and leave the
  threshold at Verbose (TraceTelemetryFilter.java:98-106). Upper-casing of non-ASCII characters is
  not modelled either.
- ExporterProperties.LoggerMessageKept: when an exception record's message is null, the model adds
  no "Logger Message" property. The code calls `put("Logger Message", null)` (Exporter.java:230): a
  map that accepts nulls then holds a null value under that key, and one that refuses nulls throws,
  which would abort the rest of the batch. The model does neither; the SDK's property map is not
  part of this model.
- A Trace item has no timestamp of its own in the model, matching the code, which never sets one.
- `toSeverityLevel` throws on a null level (its `switch` on a null String), so the record is not
  tracked and the batch fails; the model follows the code here (`ExporterModel.ToSeverityLevel`).
- `exportLogSpan` exports no timed events: only Request and dependency spans export theirs
  (`ExporterProperties.LogSpanRecord`).
- `setFromTraceLevel("OFF")` does not set anything. The class comment says OFF filters out all
  traces, but the code assigns the parameter, not the field. The model keeps the field unchanged
  (`OffKeepsThreshold`).
- `ApplicationInsightsJsonLayout` and `TracerInstaller` are outside the modelled core.
