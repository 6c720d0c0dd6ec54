/**
 * The Exporter class of Exporter.java. It walks a batch of spans and hands telemetry items,
 * one at a time, to its TelemetryClient, building each item through its setters in the
 * source's order. Every method is proved to hand over exactly the items that module
 * ExporterModel describes, so what ExporterProperties proves about those holds of the class.
 */
module AgentOt {
  import opened Wrappers
  import opened JavaRuntime
  import opened Telemetry
  import opened Spans
  import opened ExporterModel
  import ExporterProperties

  class Exporter {
    const telemetryClient: TelemetryClient
    /** The URI parser and date formatter of the Java library, which are not part of this model. */
    const env: Environment

    constructor (telemetryClient: TelemetryClient, env: Environment)
      ensures this.telemetryClient == telemetryClient && this.env == env
    {
      this.telemetryClient := telemetryClient;
      this.env := env;
    }

    /**
     * export(List<SpanData>): every span in order; the first exception abandons the rest of
     * the batch and gives FAILED_NOT_RETRYABLE, while what was tracked before it stays tracked.
     */
    method Export(spans: seq<SpanData>) returns (result: ResultCode)
      modifies telemetryClient
      ensures telemetryClient.items == old(telemetryClient.items) + BatchOutcome(env, spans).items
      ensures result == ResultCodeOf(BatchOutcome(env, spans))
    {
      var i := 0;
      while i < |spans|
        invariant 0 <= i <= |spans|
        invariant BatchOutcome(env, spans[..i]).ok
        invariant telemetryClient.items == old(telemetryClient.items) + BatchOutcome(env, spans[..i]).items
      {
        var ok := ExportSpan(spans[i]);
        ExporterProperties.BatchStep(env, spans, i, old(telemetryClient.items));
        if !ok {
          ExporterProperties.BatchStopsAtFailure(env, spans, i + 1);
          return FailedNotRetryable;
        }
        i := i + 1;
      }
      assert spans[..i] == spans;
      return Success;
    }

    /** export(SpanData): dispatch on the span's kind, and on its name for INTERNAL spans. */
    method ExportSpan(span: SpanData) returns (ok: bool)
      modifies telemetryClient
      ensures telemetryClient.items == old(telemetryClient.items) + SpanOutcome(env, span).items
      ensures ok == SpanOutcome(env, span).ok
    {
      var kind := span.kind;
      if kind == Internal {
        if span.name == "log.message" {
          ok := ExportLogSpan(span);
        } else {
          ok := ExportRemoteDependency(span, true);
        }
      } else if kind == Client {
        ok := ExportRemoteDependency(span, false);
      } else if kind == Server {
        ok := ExportRequest(span);
      } else {
        // any other kind: UnsupportedOperationException
        ok := false;
      }
    }

    method ExportRequest(span: SpanData) returns (ok: bool)
      modifies telemetryClient
      ensures telemetryClient.items == old(telemetryClient.items) + PrimaryOutcome(env, span, RequestItem(RequestFor(span))).items
      ensures ok == PrimaryOutcome(env, span, RequestItem(RequestFor(span))).ok
    {
      var telemetry := NewRequest();

      var httpStatusCode := Get(span.attributes, "http.status_code");
      if IsNonNullLong(httpStatusCode) {
        telemetry := telemetry.(responseCode := Some(Decimal(httpStatusCode.value.longValue)));
      }

      var httpUrl := GetString(span.attributes, "http.url");
      if httpUrl.Some? {
        telemetry := telemetry.(url := httpUrl);
      }

      telemetry := telemetry.(name := Some(span.name));

      var withContext := SetContext(span, telemetry.context);
      telemetry := telemetry.(context := withContext.0);
      telemetry := telemetry.(id := Some(withContext.1));

      telemetry := telemetry.(timestamp := Some(NanosToMillis(span.startEpochNanos)));
      telemetry := telemetry.(duration := Some(NanosToMillis(SubtractLong(span.endEpochNanos, span.startEpochNanos))));

      telemetry := telemetry.(success := Some(span.status.isOk));
      var description := span.status.description;
      if description.Some? {
        telemetry := telemetry.(properties := telemetry.properties["statusDescription" := description.value]);
      }
      assert telemetry == RequestFor(span);

      telemetryClient.Track(RequestItem(telemetry));
      TrackExceptionIfNeeded(span, RequestItem(telemetry), telemetry.id.value);
      ok := ExportEvents(span);
      ExporterProperties.PrimaryItems(env, span, RequestItem(telemetry), old(telemetryClient.items));
    }

    method ExportRemoteDependency(span: SpanData, inProc: bool) returns (ok: bool)
      modifies telemetryClient
      ensures var kind := if inProc then InProc else ClientDependencyKind(span);
              && telemetryClient.items == old(telemetryClient.items) + PrimaryOutcome(env, span, DependencyItem(DependencyFor(env, span, kind))).items
              && ok == PrimaryOutcome(env, span, DependencyItem(DependencyFor(env, span, kind))).ok
    {
      var telemetry := NewRemoteDependency();
      if inProc {
        telemetry := telemetry.(dependencyType := Some("InProc"));
        telemetry := telemetry.(name := Some(span.name));
      } else {
        if "http.method" in span.attributes {
          telemetry := ApplyHttpRequestSpan(span, telemetry);
        } else if span.name == "database.query" || span.name == "redis.query" {
          telemetry := ApplyDatabaseQuerySpan(span, telemetry);
        } else {
          telemetry := telemetry.(name := Some(span.name));
        }
      }

      var withContext := SetContext(span, telemetry.context);
      telemetry := telemetry.(context := withContext.0);
      telemetry := telemetry.(id := Some(withContext.1));

      telemetry := telemetry.(timestamp := Some(NanosToMillis(span.startEpochNanos)));
      telemetry := telemetry.(duration := Some(NanosToMillis(SubtractLong(span.endEpochNanos, span.startEpochNanos))));

      telemetry := telemetry.(success := Some(span.status.isOk));
      var description := span.status.description;
      if description.Some? {
        telemetry := telemetry.(properties := telemetry.properties["statusDescription" := description.value]);
      }
      assert telemetry == DependencyFor(env, span, if inProc then InProc else ClientDependencyKind(span));

      telemetryClient.Track(DependencyItem(telemetry));
      TrackExceptionIfNeeded(span, DependencyItem(telemetry), telemetry.id.value);
      ok := ExportEvents(span);
      ExporterProperties.PrimaryItems(env, span, DependencyItem(telemetry), old(telemetryClient.items));
    }

    method ExportLogSpan(span: SpanData) returns (ok: bool)
      modifies telemetryClient
      ensures telemetryClient.items == old(telemetryClient.items) + LogSpanOutcome(env, span).items
      ensures ok == LogSpanOutcome(env, span).ok
    {
      var message := GetString(span.attributes, "message");
      var level := GetString(span.attributes, "level");
      var loggerName := GetString(span.attributes, "loggerName");
      var errorStack := GetString(span.attributes, "error.stack");
      if errorStack.None? {
        ok := TrackTrace(message, span.startEpochNanos, level, loggerName, span.traceId, span.parentSpanId);
      } else {
        ok := TrackException(message, span.startEpochNanos, level, loggerName, errorStack.value,
                             span.traceId, span.parentSpanId);
      }
    }

    /** exportEvents: one trace or exception per timed event, parented on the span itself. */
    method ExportEvents(span: SpanData) returns (ok: bool)
      modifies telemetryClient
      ensures telemetryClient.items == old(telemetryClient.items) + EventsOutcome(env, span, span.timedEvents).items
      ensures ok == EventsOutcome(env, span, span.timedEvents).ok
    {
      var events := span.timedEvents;
      var i := 0;
      while i < |events|
        invariant 0 <= i <= |events|
        invariant EventsOutcome(env, span, events[..i]).ok
        invariant telemetryClient.items == old(telemetryClient.items) + EventsOutcome(env, span, events[..i]).items
      {
        var event := events[i];
        var message := event.name;
        var timeEpochNanos := event.epochNanos;
        var level := GetString(event.attributes, "level");
        var loggerName := GetString(event.attributes, "loggerName");
        var errorStack := GetString(event.attributes, "error.stack");
        var tracked;
        if errorStack.None? {
          tracked := TrackTrace(Some(message), timeEpochNanos, level, loggerName, span.traceId, span.spanId);
        } else {
          tracked := TrackException(Some(message), timeEpochNanos, level, loggerName, errorStack.value,
                                    span.traceId, span.spanId);
        }
        ExporterProperties.EventsStep(env, span, events, i, old(telemetryClient.items));
        if !tracked {
          ExporterProperties.EventsStopAtFailure(env, span, events, i + 1);
          return false;
        }
        i := i + 1;
      }
      assert events[..i] == events;
      return true;
    }

    method TrackTrace(message: Option<string>, timeEpochNanos: Int64, level: Option<string>,
                      loggerName: Option<string>, traceId: TraceId, parentSpanId: SpanId) returns (tracked: bool)
      modifies telemetryClient
      ensures var t := TraceFor(env, message, timeEpochNanos, level, loggerName, traceId, parentSpanId);
              && telemetryClient.items == old(telemetryClient.items) + (if t.Some? then [TraceItem(t.value)] else [])
              && tracked == t.Some?
    {
      var severityLevel := ToSeverityLevel(level);
      if severityLevel.None? {
        // the switch in toSeverityLevel throws on a null level before anything is tracked
        return false;
      }
      var telemetry := NewTrace(message, severityLevel);

      // setId with the trace id, setParentId only for a valid parent, on a fresh context
      telemetry := telemetry.(context := ChildContext(traceId, parentSpanId));

      var properties := SetProperties(telemetry.properties, timeEpochNanos, level, loggerName);
      telemetry := telemetry.(properties := properties);
      telemetryClient.TrackTrace(telemetry);
      return true;
    }

    method TrackException(message: Option<string>, timeEpochNanos: Int64, level: Option<string>,
                          loggerName: Option<string>, errorStack: string, traceId: TraceId,
                          parentSpanId: SpanId) returns (tracked: bool)
      modifies telemetryClient
      ensures var t := ExceptionFor(env, message, timeEpochNanos, level, loggerName, errorStack, traceId, parentSpanId);
              && telemetryClient.items == old(telemetryClient.items) + (if t.Some? then [ExceptionItem(t.value)] else [])
              && tracked == t.Some?
    {
      var telemetry := NewException();

      // setId with the trace id, setParentId only for a valid parent, on a fresh context
      telemetry := telemetry.(context := ChildContext(traceId, parentSpanId));

      telemetry := telemetry.(exceptions := Some(errorStack));
      var severityLevel := ToSeverityLevel(level);
      if severityLevel.None? {
        // the switch in toSeverityLevel throws on a null level before anything is tracked
        return false;
      }
      telemetry := telemetry.(severityLevel := severityLevel);
      if message.Some? {
        telemetry := telemetry.(properties := telemetry.properties["Logger Message" := message.value]);
      }
      var properties := SetProperties(telemetry.properties, timeEpochNanos, level, loggerName);
      telemetry := telemetry.(properties := properties);
      telemetryClient.TrackException(telemetry);
      return true;
    }

    /** setProperties: the logger properties of a trace or exception record. */
    method SetProperties(properties: map<string, string>, timeEpochNanos: Int64, level: Option<string>,
                         loggerName: Option<string>) returns (updated: map<string, string>)
      ensures updated == LoggerProperties(env, properties, timeEpochNanos, level, loggerName)
    {
      updated := properties["SourceType" := "Logger"];
      updated := updated["TimeStamp" := env.formatDate(NanosToMillis(timeEpochNanos))];
      if level.Some? {
        updated := updated["LoggingLevel" := level.value];
      }
      if loggerName.Some? {
        updated := updated["LoggerName" := loggerName.value];
      }
    }

    method ApplyHttpRequestSpan(span: SpanData, telemetry: RemoteDependencyTelemetry) returns (updated: RemoteDependencyTelemetry)
      ensures updated.dependencyType == Some(HttpDependencyType)
      ensures updated.name == if HttpName(env, span).Some? then HttpName(env, span) else telemetry.name
      ensures updated.target ==
              if ParsedUrl(env, span).Some? then CreateTarget(ParsedUrl(env, span).value) else telemetry.target
      ensures var url := GetString(span.attributes, "http.url");
              updated.commandName == if url.Some? then url else telemetry.commandName
      ensures var statusCode := StatusCodeText(span.attributes);
              updated.resultCode == if statusCode.Some? then statusCode else telemetry.resultCode
      ensures updated.properties == WithHttpProperties(telemetry.properties, span)
      ensures updated == telemetry.(dependencyType := updated.dependencyType, name := updated.name,
                                    target := updated.target, commandName := updated.commandName,
                                    resultCode := updated.resultCode, properties := updated.properties)
    {
      updated := telemetry.(dependencyType := Some(HttpDependencyType));

      var requestMethod := GetString(span.attributes, "http.method");
      var url := GetString(span.attributes, "http.url");

      var httpMethod := GetString(span.attributes, "http.method");
      if httpMethod.Some? {
        var httpUrl := GetString(span.attributes, "http.url");
        if httpUrl.Some? {
          updated := updated.(name := Some(httpMethod.value + " " + httpUrl.value));
        }
      }

      var httpStatusCode := Get(span.attributes, "http.status_code");
      if httpStatusCode.Some? && httpStatusCode.value.LongValue? {
        var statusCode := httpStatusCode.value.longValue;
        updated := updated.(resultCode := Some(Decimal(statusCode)));
      }

      if requestMethod.Some? {
        updated := updated.(properties := updated.properties["Method" := requestMethod.value]);
      }
      if url.Some? {
        var uriObject := env.parseUri(url.value);
        // None: `new URI(url)` threw URISyntaxException, which is logged and swallowed
        if uriObject.Some? {
          var target := CreateTarget(uriObject.value);
          updated := updated.(target := target);
          var path := uriObject.value.path;
          if IsNullOrEmpty(path) {
            updated := updated.(name := Some(ConcatForm(requestMethod) + " /"));
          } else {
            updated := updated.(name := Some(ConcatForm(requestMethod) + " " + path.value));
          }
        }
        updated := updated.(commandName := url);
        updated := updated.(properties := updated.properties["URI" := url.value]);
      }
    }

    method ApplyDatabaseQuerySpan(span: SpanData, telemetry: RemoteDependencyTelemetry) returns (updated: RemoteDependencyTelemetry)
      ensures var dbType := GetString(span.attributes, "db.type");
              var resourceName := GetString(span.attributes, "resource.name");
              var spanType := DatabaseType(GetString(span.attributes, "span.type"));
              updated == telemetry.(
                name := if dbType.Some? then dbType else telemetry.name,
                commandName := if resourceName.Some? then resourceName else telemetry.commandName,
                dependencyType := if spanType.Some? then spanType else telemetry.dependencyType)
    {
      updated := telemetry;
      var dbType := GetString(span.attributes, "db.type");
      var resourceName := GetString(span.attributes, "resource.name");
      var spanType := GetString(span.attributes, "span.type");

      if dbType.Some? {
        updated := updated.(name := dbType);
      }
      if resourceName.Some? {
        updated := updated.(commandName := resourceName);
      }
      if spanType.Some? {
        if spanType.value == "sql" {
          updated := updated.(dependencyType := Some("SQL"));
        } else if spanType.value == "redis" {
          updated := updated.(dependencyType := Some("Redis"));
        } else {
          updated := updated.(dependencyType := spanType);
        }
      }
    }

    /** trackExceptionIfNeeded: the extra exception of a span with an `error.stack` string. */
    method TrackExceptionIfNeeded(span: SpanData, telemetry: TelemetryItem, id: string)
      modifies telemetryClient
      ensures telemetryClient.items == old(telemetryClient.items) + ExceptionIfNeeded(span, telemetry, id)
    {
      var errorStack := GetString(span.attributes, "error.stack");
      if errorStack.Some? {
        var exceptionTelemetry := NewException();
        exceptionTelemetry := exceptionTelemetry.(exceptions := errorStack);
        exceptionTelemetry := exceptionTelemetry.(context := exceptionTelemetry.context.(id := telemetry.Context().id));
        exceptionTelemetry := exceptionTelemetry.(context := exceptionTelemetry.context.(parentId := Some(id)));
        exceptionTelemetry := exceptionTelemetry.(timestamp := Some(NanosToMillis(span.endEpochNanos)));
        telemetryClient.Track(ExceptionItem(exceptionTelemetry));
      }
    }
  }
}
