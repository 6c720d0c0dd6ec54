/**
 * What the exporter promises, proved about the functions of module ExporterModel: the
 * correlation-id format and the ids every item carries, the classification and its
 * precedence, the fields of each kind of item, the log-span and event rules, and the
 * all-or-nothing handling of a batch.
 */
module ExporterProperties {
  import opened Wrappers
  import opened JavaRuntime
  import opened Telemetry
  import opened Spans
  import opened ExporterModel

  // ----- Batches and event lists stop at the first exception

  /**
   * The events up to and including index i, after what was tracked earlier: what came
   * before, then event i, unless an earlier event threw.
   */
  lemma EventsStep(env: Environment, span: SpanData, events: seq<TimedEvent>, i: nat, earlier: seq<TelemetryItem>)
    requires i < |events|
    ensures EventsOutcome(env, span, events[..i + 1])
            == AndThen(EventsOutcome(env, span, events[..i]), Emit(EventRecordFor(env, span, events[i])))
    ensures EventsOutcome(env, span, events[..i]).ok ==>
              earlier + EventsOutcome(env, span, events[..i]).items + Emit(EventRecordFor(env, span, events[i])).items
              == earlier + EventsOutcome(env, span, events[..i + 1]).items
  {
    assert events[..i + 1][..i] == events[..i];
  }

  /** A Request's or a dependency's item, tracked after what was tracked earlier. */
  lemma PrimaryItems(env: Environment, span: SpanData, telemetry: TelemetryItem, earlier: seq<TelemetryItem>)
    ensures earlier + [telemetry] + ExceptionIfNeeded(span, telemetry, OwnId(span))
              + EventsOutcome(env, span, span.timedEvents).items
            == earlier + PrimaryOutcome(env, span, telemetry).items
    ensures PrimaryOutcome(env, span, telemetry).ok == EventsOutcome(env, span, span.timedEvents).ok
  {
  }

  /**
   * The spans up to and including index i, after what was tracked earlier: what came
   * before, then span i, unless an earlier span threw.
   */
  lemma BatchStep(env: Environment, spans: seq<SpanData>, i: nat, earlier: seq<TelemetryItem>)
    requires i < |spans|
    ensures BatchOutcome(env, spans[..i + 1]) == AndThen(BatchOutcome(env, spans[..i]), SpanOutcome(env, spans[i]))
    ensures BatchOutcome(env, spans[..i]).ok ==>
              earlier + BatchOutcome(env, spans[..i]).items + SpanOutcome(env, spans[i]).items
              == earlier + BatchOutcome(env, spans[..i + 1]).items
  {
    assert spans[..i + 1][..i] == spans[..i];
  }

  /** Once a prefix of the events has thrown, the later events add nothing. */
  lemma {:induction false} EventsStopAtFailure(env: Environment, span: SpanData, events: seq<TimedEvent>, k: nat)
    requires k <= |events|
    requires !EventsOutcome(env, span, events[..k]).ok
    ensures EventsOutcome(env, span, events) == EventsOutcome(env, span, events[..k])
    decreases |events| - k
  {
    if k < |events| {
      var init := events[..|events| - 1];
      assert init[..k] == events[..k];
      EventsStopAtFailure(env, span, init, k);
    } else {
      assert events[..k] == events;
    }
  }

  /** Once a prefix of the batch has thrown, the later spans add nothing. */
  lemma {:induction false} BatchStopsAtFailure(env: Environment, spans: seq<SpanData>, k: nat)
    requires k <= |spans|
    requires !BatchOutcome(env, spans[..k]).ok
    ensures BatchOutcome(env, spans) == BatchOutcome(env, spans[..k])
    decreases |spans| - k
  {
    if k < |spans| {
      var init := spans[..|spans| - 1];
      assert init[..k] == spans[..k];
      BatchStopsAtFailure(env, init, k);
    } else {
      assert spans[..k] == spans;
    }
  }

  // ----- Correlation ids

  /** The position of the first `c` in `s`, or |s| when there is none. */
  function IndexOf(s: string, c: char): (i: nat)
    ensures i <= |s|
    ensures i < |s| ==> s[i] == c
    ensures forall j :: 0 <= j < i ==> s[j] != c
  {
    if s == [] then 0 else if s[0] == c then 0 else 1 + IndexOf(s[1..], c)
  }

  /** The first `c` of `t + rest` is the one that starts `rest`, when `t` has none. */
  lemma {:induction false} IndexOfAfter(t: string, rest: string, c: char)
    requires c !in t
    requires rest != [] && rest[0] == c
    ensures IndexOf(t + rest, c) == |t|
    decreases |t|
  {
    if t == [] {
      assert t + rest == rest;
    } else {
      assert (t + rest)[0] == t[0];
      assert (t + rest)[1..] == t[1..] + rest;
      IndexOfAfter(t[1..], rest, c);
    }
  }

  /**
   * Reads a combined id "|trace.span." back: the trace id is everything up to the first
   * '.', the span id everything after it but the final '.'.
   */
  function ParseCombined(id: string): Option<(string, string)> {
    if |id| >= 2 && id[0] == '|' && id[|id| - 1] == '.' then
      var body := id[1..|id| - 1];
      var k := IndexOf(body, '.');
      if k < |body| then Some((body[..k], body[k + 1..])) else None
    else
      None
  }

  /**
   * A combined id names its trace and its span: both read back, as long as the trace id has
   * no '.', which a lower-case hexadecimal rendering never has.
   */
  lemma CombineRoundTrip(traceId: string, spanId: SpanId)
    requires '.' !in traceId
    ensures ParseCombined(Combine(traceId, spanId)) == Some((traceId, spanId.lowerBase16))
  {
    var id := Combine(traceId, spanId);
    var body := id[1..|id| - 1];
    assert body == traceId + ("." + spanId.lowerBase16);
    IndexOfAfter(traceId, "." + spanId.lowerBase16, '.');
    assert body[..|traceId|] == traceId;
    assert body[|traceId| + 1..] == spanId.lowerBase16;
  }

  /** Different spans, or the same span id in different traces, never share a combined id. */
  lemma CombineInjective(traceId1: string, spanId1: SpanId, traceId2: string, spanId2: SpanId)
    requires '.' !in traceId1 && '.' !in traceId2
    requires Combine(traceId1, spanId1) == Combine(traceId2, spanId2)
    ensures traceId1 == traceId2 && spanId1.lowerBase16 == spanId2.lowerBase16
  {
    CombineRoundTrip(traceId1, spanId1);
    CombineRoundTrip(traceId2, spanId2);
  }

  // ----- A batch: all-or-nothing, with what was tracked kept

  /** The outcome of each span of a batch, in order. */
  function SpanOutcomes(env: Environment, spans: seq<SpanData>): seq<Outcome> {
    seq(|spans|, i requires 0 <= i < |spans| => SpanOutcome(env, spans[i]))
  }

  /** Outcomes one after another, abandoning the rest at the first that threw. */
  function RunAll(outcomes: seq<Outcome>): Outcome
    decreases |outcomes|
  {
    if outcomes == [] then Outcome([], true)
    else AndThen(RunAll(outcomes[..|outcomes| - 1]), outcomes[|outcomes| - 1])
  }

  /** The items of all outcomes in order, read from the front, as if none threw. */
  function AllItems(outcomes: seq<Outcome>): seq<TelemetryItem>
    decreases |outcomes|
  {
    if outcomes == [] then [] else outcomes[0].items + AllItems(outcomes[1..])
  }

  /** The items of every span of a batch in order, as if none threw. */
  function Tracked(env: Environment, spans: seq<SpanData>): seq<TelemetryItem> {
    AllItems(SpanOutcomes(env, spans))
  }

  /** A batch runs the outcomes of its spans one after another. */
  lemma {:induction false} BatchRunsAll(env: Environment, spans: seq<SpanData>)
    ensures BatchOutcome(env, spans) == RunAll(SpanOutcomes(env, spans))
    decreases |spans|
  {
    if spans != [] {
      var n := |spans| - 1;
      BatchRunsAll(env, spans[..n]);
      assert SpanOutcomes(env, spans[..n]) == SpanOutcomes(env, spans)[..n];
    }
  }

  lemma {:induction false} AllItemsAppend(outcomes: seq<Outcome>, last: Outcome)
    ensures AllItems(outcomes + [last]) == AllItems(outcomes) + last.items
    decreases |outcomes|
  {
    if outcomes == [] {
      assert [last][1..] == [];
    } else {
      assert (outcomes + [last])[0] == outcomes[0];
      assert (outcomes + [last])[1..] == outcomes[1..] + [last];
      AllItemsAppend(outcomes[1..], last);
    }
  }

  lemma {:induction false} RunAllOk(outcomes: seq<Outcome>)
    requires forall i :: 0 <= i < |outcomes| ==> outcomes[i].ok
    ensures RunAll(outcomes) == Outcome(AllItems(outcomes), true)
    decreases |outcomes|
  {
    if outcomes != [] {
      var n := |outcomes| - 1;
      var init := outcomes[..n];
      assert forall i :: 0 <= i < |init| ==> init[i] == outcomes[i];
      RunAllOk(init);
      AllItemsAppend(init, outcomes[n]);
      assert init + [outcomes[n]] == outcomes;
    }
  }

  lemma {:induction false} RunAllStops(outcomes: seq<Outcome>, k: nat)
    requires k <= |outcomes|
    requires !RunAll(outcomes[..k]).ok
    ensures RunAll(outcomes) == RunAll(outcomes[..k])
    decreases |outcomes| - k
  {
    if k < |outcomes| {
      var init := outcomes[..|outcomes| - 1];
      assert init[..k] == outcomes[..k];
      RunAllStops(init, k);
    } else {
      assert outcomes[..k] == outcomes;
    }
  }

  lemma RunAllCutoff(outcomes: seq<Outcome>, k: nat)
    requires k < |outcomes|
    requires forall i :: 0 <= i < k ==> outcomes[i].ok
    requires !outcomes[k].ok
    ensures RunAll(outcomes) == Outcome(AllItems(outcomes[..k]) + outcomes[k].items, false)
  {
    var init := outcomes[..k];
    assert forall i :: 0 <= i < k ==> init[i] == outcomes[i];
    RunAllOk(init);
    var upTo := outcomes[..k + 1];
    assert upTo[..k] == init && upTo[k] == outcomes[k];
    assert RunAll(upTo) == AndThen(RunAll(init), outcomes[k]);
    RunAllStops(outcomes, k + 1);
  }

  lemma {:induction false} FirstThrown(outcomes: seq<Outcome>) returns (k: nat)
    requires exists i :: 0 <= i < |outcomes| && !outcomes[i].ok
    ensures k < |outcomes| && !outcomes[k].ok
    ensures forall i :: 0 <= i < k ==> outcomes[i].ok
    decreases |outcomes|
  {
    if !outcomes[0].ok {
      k := 0;
    } else {
      var i :| 0 <= i < |outcomes| && !outcomes[i].ok;
      assert outcomes[1..][i - 1] == outcomes[i];
      var k' := FirstThrown(outcomes[1..]);
      k := k' + 1;
      assert forall j :: 1 <= j < k ==> outcomes[j] == outcomes[1..][j - 1];
    }
  }

  /** A batch in which no span throws tracks the items of every span, in order, and succeeds. */
  lemma BatchAllOk(env: Environment, spans: seq<SpanData>)
    requires forall i :: 0 <= i < |spans| ==> SpanOutcome(env, spans[i]).ok
    ensures BatchOutcome(env, spans) == Outcome(Tracked(env, spans), true)
  {
    BatchRunsAll(env, spans);
    RunAllOk(SpanOutcomes(env, spans));
  }

  /**
   * The first span that throws ends the batch: the items of the spans before it, and what
   * that span itself tracked before throwing, stay tracked; no later span is looked at.
   */
  lemma BatchCutoff(env: Environment, spans: seq<SpanData>, k: nat)
    requires k < |spans|
    requires forall i :: 0 <= i < k ==> SpanOutcome(env, spans[i]).ok
    requires !SpanOutcome(env, spans[k]).ok
    ensures BatchOutcome(env, spans) == Outcome(Tracked(env, spans[..k]) + SpanOutcome(env, spans[k]).items, false)
  {
    BatchRunsAll(env, spans);
    var outcomes := SpanOutcomes(env, spans);
    assert SpanOutcomes(env, spans[..k]) == outcomes[..k];
    RunAllCutoff(outcomes, k);
  }

  /** The first span of a batch that throws, when one does. */
  lemma FirstFailure(env: Environment, spans: seq<SpanData>) returns (k: nat)
    requires exists i :: 0 <= i < |spans| && !SpanOutcome(env, spans[i]).ok
    ensures k < |spans| && !SpanOutcome(env, spans[k]).ok
    ensures forall i :: 0 <= i < k ==> SpanOutcome(env, spans[i]).ok
  {
    var outcomes := SpanOutcomes(env, spans);
    assert forall j :: 0 <= j < |spans| ==> outcomes[j] == SpanOutcome(env, spans[j]);
    var i :| 0 <= i < |spans| && !SpanOutcome(env, spans[i]).ok;
    assert !outcomes[i].ok;
    k := FirstThrown(outcomes);
  }

  /** export returns SUCCESS exactly when no span of the batch throws. */
  lemma BatchSucceedsIff(env: Environment, spans: seq<SpanData>)
    ensures ResultCodeOf(BatchOutcome(env, spans)) == Success
            <==> forall i :: 0 <= i < |spans| ==> SpanOutcome(env, spans[i]).ok
  {
    if forall i :: 0 <= i < |spans| ==> SpanOutcome(env, spans[i]).ok {
      BatchAllOk(env, spans);
    } else {
      var k := FirstFailure(env, spans);
      BatchCutoff(env, spans, k);
    }
  }

  /** Whatever a batch tracked for its first spans stays in the sink, however the batch ends. */
  lemma {:induction false} BatchKeepsPrefix(env: Environment, spans: seq<SpanData>, k: nat)
    requires k <= |spans|
    ensures BatchOutcome(env, spans[..k]).items <= BatchOutcome(env, spans).items
    decreases |spans| - k
  {
    if k < |spans| {
      var init := spans[..|spans| - 1];
      assert init[..k] == spans[..k];
      BatchKeepsPrefix(env, init, k);
    } else {
      assert spans[..k] == spans;
    }
  }

  /**
   * A SERVER span without a stack or events, then a span of an unsupported kind: the
   * batch fails, and the Request of the first span is all it tracked.
   */
  lemma RequestThenUnsupported(env: Environment, spans: seq<SpanData>)
    requires |spans| >= 2 && spans[0].kind == Server && spans[1].kind == Producer
    requires "error.stack" !in spans[0].attributes && spans[0].timedEvents == []
    ensures BatchOutcome(env, spans) == Outcome([RequestItem(RequestFor(spans[0]))], false)
  {
    BatchCutoff(env, spans, 1);
    var first := SpanOutcomes(env, spans[..1]);
    assert first == [SpanOutcome(env, spans[0])];
    assert first[1..] == [];
    assert AllItems(first) == first[0].items + AllItems(first[1..]);
    assert Tracked(env, spans[..1]) == SpanOutcome(env, spans[0]).items;
    assert SpanOutcome(env, spans[0]).items == [RequestItem(RequestFor(spans[0]))];
    assert SpanOutcome(env, spans[1]) == Outcome([], false);
  }

  // ----- Log records, and the events of a span

  /**
   * The properties of a log record: SourceType "Logger" and the formatted TimeStamp always,
   * LoggingLevel and LoggerName exactly when they are non-null, and every other property
   * the record already had.
   */
  lemma LoggerPropertiesKeys(env: Environment, properties: map<string, string>, timeEpochNanos: Int64,
                             level: Option<string>, loggerName: Option<string>)
    ensures var p := LoggerProperties(env, properties, timeEpochNanos, level, loggerName);
            && "SourceType" in p && p["SourceType"] == "Logger"
            && "TimeStamp" in p && p["TimeStamp"] == env.formatDate(NanosToMillis(timeEpochNanos))
            && (level.Some? ==> "LoggingLevel" in p && p["LoggingLevel"] == level.value)
            && (loggerName.Some? ==> "LoggerName" in p && p["LoggerName"] == loggerName.value)
            && (forall k :: k in p <==> k in properties || k == "SourceType" || k == "TimeStamp"
                                         || (k == "LoggingLevel" && level.Some?)
                                         || (k == "LoggerName" && loggerName.Some?))
            && (forall k :: (k in properties && k != "SourceType" && k != "TimeStamp" && k != "LoggingLevel"
                               && k != "LoggerName") ==> p[k] == properties[k])
  {
  }

  /**
   * One log record: nothing when its level is null (the switch throws), otherwise a Trace
   * when there is no `error.stack` string and an Exception carrying the stack when there is,
   * correlated under the given parent, with its message, severity and Logger properties.
   */
  lemma LogRecordShape(env: Environment, message: Option<string>, timeEpochNanos: Int64, attributes: Attributes,
                       traceId: TraceId, parentSpanId: SpanId)
    ensures var r := LogRecordFor(env, message, timeEpochNanos, attributes, traceId, parentSpanId);
            var level := GetString(attributes, "level");
            var loggerName := GetString(attributes, "loggerName");
            var errorStack := GetString(attributes, "error.stack");
            && (r.Some? <==> level.Some?)
            && (r.Some? ==> (r.value.TraceItem? <==> errorStack.None?) && (r.value.ExceptionItem? <==> errorStack.Some?))
            && (r.Some? ==> r.value.Context() == ChildContext(traceId, parentSpanId))
            && (r.Some? && r.value.TraceItem? ==>
                  r.value.trace.message == message && r.value.trace.severityLevel == ToSeverityLevel(level)
                  && r.value.Properties() == LoggerProperties(env, map[], timeEpochNanos, level, loggerName))
            && (r.Some? && r.value.ExceptionItem? ==>
                  r.value.exception.exceptions == errorStack && r.value.exception.timestamp == None
                  && r.value.exception.severityLevel == ToSeverityLevel(level)
                  && r.value.Properties() == LoggerProperties(env, LoggerMessage(message), timeEpochNanos, level, loggerName))
  {
  }

  /** An exception record's "Logger Message" is its message, when that is non-null. */
  lemma LoggerMessageKept(env: Environment, message: string, timeEpochNanos: Int64,
                          level: Option<string>, loggerName: Option<string>)
    ensures var p := LoggerProperties(env, LoggerMessage(Some(message)), timeEpochNanos, level, loggerName);
            "Logger Message" in p && p["Logger Message"] == message
  {
  }

  /** The events throw at the first whose level is null, and only there. */
  lemma {:induction false} EventsOkIff(env: Environment, span: SpanData, events: seq<TimedEvent>)
    ensures EventsOutcome(env, span, events).ok
            <==> forall i :: 0 <= i < |events| ==> GetString(events[i].attributes, "level").Some?
    decreases |events|
  {
    if events != [] {
      var n := |events| - 1;
      var init := events[..n];
      EventsOkIff(env, span, init);
      assert forall i :: 0 <= i < n ==> init[i] == events[i];
      LogRecordShape(env, Some(events[n].name), events[n].epochNanos, events[n].attributes, span.traceId, span.spanId);
    }
  }

  /** When no event throws, each event yields exactly one record, in order. */
  lemma {:induction false} EventsOneEach(env: Environment, span: SpanData, events: seq<TimedEvent>)
    requires EventsOutcome(env, span, events).ok
    ensures |EventsOutcome(env, span, events).items| == |events|
    ensures forall i :: 0 <= i < |events| ==>
              EventRecordFor(env, span, events[i]).Some?
              && EventsOutcome(env, span, events).items[i] == EventRecordFor(env, span, events[i]).value
    decreases |events|
  {
    if events != [] {
      var n := |events| - 1;
      var init := events[..n];
      EventsOneEach(env, span, init);
      assert forall i :: 0 <= i < n ==> init[i] == events[i];
    }
  }

  /**
   * Every record an event yields belongs to the span's trace and is parented on the span
   * itself: its parent id is combine(traceId, spanId), set only when the span id is valid.
   */
  lemma {:induction false} EventsParentedOnSpan(env: Environment, span: SpanData, events: seq<TimedEvent>)
    ensures forall item :: item in EventsOutcome(env, span, events).items ==>
              item.Context() == ChildContext(span.traceId, span.spanId)
    decreases |events|
  {
    if events != [] {
      var n := |events| - 1;
      EventsParentedOnSpan(env, span, events[..n]);
      LogRecordShape(env, Some(events[n].name), events[n].epochNanos, events[n].attributes, span.traceId, span.spanId);
    }
  }

  // ----- What each span becomes

  /**
   * The dispatch of export(SpanData), case by case and in both directions: INTERNAL is a log
   * span exactly when named "log.message" and an in-process dependency otherwise, SERVER is a
   * Request, CLIENT is a dependency of one of the other three subtypes, and nothing else is
   * exported.
   */
  lemma DispatchTable(span: SpanData)
    ensures Classify(span).None? <==> span.kind !in {Internal, Client, Server}
    ensures Classify(span) == Some(LogSpan) <==> span.kind == Internal && span.name == "log.message"
    ensures Classify(span) == Some(DependencySpan(InProc)) <==> span.kind == Internal && span.name != "log.message"
    ensures Classify(span) == Some(RequestSpan) <==> span.kind == Server
    ensures span.kind == Client <==>
              Classify(span).Some? && Classify(span).value.DependencySpan? && Classify(span).value.dependency != InProc
  {
  }

  /**
   * exportRemoteDependency's tests for a CLIENT span, in their order: HTTP exactly when it has
   * `http.method`, else a database dependency exactly when named "database.query" or
   * "redis.query", else generic.
   */
  lemma ClientDispatch(span: SpanData)
    requires span.kind == Client
    ensures Classify(span) == Some(DependencySpan(Http)) <==> "http.method" in span.attributes
    ensures Classify(span) == Some(DependencySpan(Database)) <==>
              "http.method" !in span.attributes && (span.name == "database.query" || span.name == "redis.query")
    ensures Classify(span) == Some(DependencySpan(Generic)) <==>
              "http.method" !in span.attributes && span.name != "database.query" && span.name != "redis.query"
  {
  }

  /** Only INTERNAL, CLIENT and SERVER spans are exported; any other kind throws at once. */
  lemma UnsupportedKind(env: Environment, span: SpanData)
    ensures Classify(span).None? <==> span.kind != Internal && span.kind != Client && span.kind != Server
    ensures Classify(span).None? ==> SpanOutcome(env, span) == Outcome([], false)
  {
  }

  /**
   * A log span ("log.message" INTERNAL span) becomes exactly one record, or nothing when its
   * level is null: never a dependency, no extra exception and nothing for its events.
   */
  lemma LogSpanRecord(env: Environment, span: SpanData, events: seq<TimedEvent>)
    requires span.kind == Internal && span.name == "log.message"
    ensures SpanOutcome(env, span) == Emit(LogRecordFor(env, GetString(span.attributes, "message"), span.startEpochNanos,
                                                        span.attributes, span.traceId, span.parentSpanId))
    ensures |SpanOutcome(env, span).items| <= 1
    ensures SpanOutcome(env, span).ok <==> GetString(span.attributes, "level").Some?
    ensures SpanOutcome(env, span.(timedEvents := events)) == SpanOutcome(env, span)
  {
    LogRecordShape(env, GetString(span.attributes, "message"), span.startEpochNanos, span.attributes,
                   span.traceId, span.parentSpanId);
  }

  /**
   * A log span at level "ERROR" yields exactly one record of severity Error: a Trace without
   * an `error.stack` string and an Exception, and no Trace, with one.
   */
  lemma LogSpanErrorExample(env: Environment, span: SpanData)
    requires span.kind == Internal && span.name == "log.message"
    requires GetString(span.attributes, "level") == Some("ERROR")
    ensures var out := SpanOutcome(env, span);
            var errorStack := GetString(span.attributes, "error.stack");
            && out.ok && |out.items| == 1
            && (errorStack.None? ==> out.items[0].TraceItem? && out.items[0].trace.severityLevel == Some(Error))
            && (errorStack.Some? ==> out.items[0].ExceptionItem? && out.items[0].exception.severityLevel == Some(Error))
  {
    LogSpanRecord(env, span, span.timedEvents);
    LogRecordShape(env, GetString(span.attributes, "message"), span.startEpochNanos, span.attributes,
                   span.traceId, span.parentSpanId);
  }

  /**
   * The items of a Request or dependency span: its own item first, then one Exception when
   * it has an `error.stack` string, then its events' records.
   */
  lemma PrimaryShape(env: Environment, span: SpanData, telemetry: TelemetryItem)
    ensures var out := PrimaryOutcome(env, span, telemetry);
            var errorStack := GetString(span.attributes, "error.stack");
            var rest := EventsOutcome(env, span, span.timedEvents).items;
            && out.ok == EventsOutcome(env, span, span.timedEvents).ok
            && out.items[0] == telemetry
            && (errorStack.None? ==> out.items[1..] == rest)
            && (errorStack.Some? ==>
                  out.items[2..] == rest
                  && out.items[1] == ExceptionItem(ExceptionTelemetry(
                       exceptions := errorStack, severityLevel := None,
                       timestamp := Some(NanosToMillis(span.endEpochNanos)),
                       context := OperationContext(telemetry.Context().id, Some(OwnId(span))),
                       properties := map[])))
  {
    var out := PrimaryOutcome(env, span, telemetry);
    var extra := ExceptionIfNeeded(span, telemetry, OwnId(span));
    assert out.items == [telemetry] + extra + EventsOutcome(env, span, span.timedEvents).items;
  }

  /** A SERVER span becomes a Request with the span's name, url, status and timing. */
  lemma ServerRequest(env: Environment, span: SpanData)
    requires span.kind == Server
    ensures var r := RequestFor(span);
            var code := Get(span.attributes, "http.status_code");
            && SpanOutcome(env, span).items[0] == RequestItem(r)
            && r.name == Some(span.name)
            && (r.url.Some? <==> "http.url" in span.attributes && span.attributes["http.url"].StringValue?)
            && (r.url.Some? ==> span.attributes["http.url"] == StringValue(r.url.value))
            && (r.responseCode.Some? <==> code.Some? && code.value.LongValue?)
            && (r.responseCode.Some? ==>
                  ParseDecimal(r.responseCode.value) == Some(code.value.longValue as int)
                  && CanonicalDecimal(r.responseCode.value))
            && r.id == Some(OwnId(span))
            && r.context == ChildContext(span.traceId, span.parentSpanId)
            && r.timestamp == Some(NanosToMillis(span.startEpochNanos))
            && r.duration == Some(NanosToMillis(SubtractLong(span.endEpochNanos, span.startEpochNanos)))
            && r.success == Some(span.status.isOk)
            && ("statusDescription" in r.properties <==> span.status.description.Some?)
            && (span.status.description.Some? ==> r.properties["statusDescription"] == span.status.description.value)
            && r.properties.Keys <= {"statusDescription"}
  {
    PrimaryShape(env, span, RequestItem(RequestFor(span)));
    var code := Get(span.attributes, "http.status_code");
    if code.Some? && code.value.LongValue? {
      DecimalRoundTrip(code.value.longValue);
      DecimalCanonical(code.value.longValue);
    }
  }

  /** A LONG `http.status_code` of 200 is reported as the response code "200". */
  lemma ResponseCodeExample(span: SpanData)
    requires Get(span.attributes, "http.status_code") == Some(LongValue(200))
    ensures RequestFor(span).responseCode == Some("200")
  {
    assert Decimal(200) == "200";
  }

  /** Any INTERNAL span other than a log span becomes an in-process dependency named after it. */
  lemma InProcDependency(env: Environment, span: SpanData)
    requires span.kind == Internal && span.name != "log.message"
    ensures var d := DependencyFor(env, span, InProc);
            && SpanOutcome(env, span).items[0] == DependencyItem(d)
            && d.dependencyType == Some("InProc") && d.name == Some(span.name)
            && d.target == None && d.commandName == None && d.resultCode == None
  {
    PrimaryShape(env, span, DependencyItem(DependencyFor(env, span, InProc)));
  }

  /**
   * A CLIENT span with an `http.method` attribute, of whatever type, is an HTTP dependency,
   * even when its name is "database.query" or "redis.query". Its command name and its "URI"
   * property are the url whether or not the url parses; its target exists only when it does.
   */
  lemma HttpDependency(env: Environment, span: SpanData)
    requires span.kind == Client && "http.method" in span.attributes
    ensures var d := DependencyFor(env, span, Http);
            var httpMethod := GetString(span.attributes, "http.method");
            var url := GetString(span.attributes, "http.url");
            var code := Get(span.attributes, "http.status_code");
            && SpanOutcome(env, span).items[0] == DependencyItem(d)
            && d.dependencyType == Some(HttpDependencyType)
            && d.commandName == url
            && ("URI" in d.properties <==> url.Some?)
            && (url.Some? ==> d.properties["URI"] == url.value)
            && ("Method" in d.properties <==> httpMethod.Some?)
            && (httpMethod.Some? ==> d.properties["Method"] == httpMethod.value)
            && d.properties.Keys <= {"Method", "URI", "statusDescription"}
            && (d.resultCode.Some? <==> code.Some? && code.value.LongValue?)
            && (d.resultCode.Some? ==>
                  ParseDecimal(d.resultCode.value) == Some(code.value.longValue as int)
                  && CanonicalDecimal(d.resultCode.value))
            && (ParsedUrl(env, span).None? ==>
                  d.target == None
                  && d.name == if httpMethod.Some? && url.Some? then Some(httpMethod.value + " " + url.value) else None)
            && (ParsedUrl(env, span).Some? ==>
                  var uri := ParsedUrl(env, span).value;
                  && d.target == CreateTarget(uri)
                  && d.name == Some(ConcatForm(httpMethod) + (if IsNullOrEmpty(uri.path) then " /" else " " + uri.path.value)))
  {
    PrimaryShape(env, span, DependencyItem(DependencyFor(env, span, Http)));
    var code := Get(span.attributes, "http.status_code");
    if code.Some? && code.value.LongValue? {
      DecimalRoundTrip(code.value.longValue);
      DecimalCanonical(code.value.longValue);
    }
    var uri := ParsedUrl(env, span);
    if uri.Some? && !IsNullOrEmpty(uri.value.path) {
      var httpMethod := GetString(span.attributes, "http.method");
      assert ConcatForm(httpMethod) + " " + uri.value.path.value == ConcatForm(httpMethod) + (" " + uri.value.path.value);
    }
  }

  /**
   * A CLIENT span without `http.method` named "database.query" or "redis.query" is a
   * database dependency: named by `db.type`, its command the `resource.name`, its type the
   * `span.type` with "sql" and "redis" spelled "SQL" and "Redis", and no target.
   */
  lemma DatabaseDependency(env: Environment, span: SpanData)
    requires span.kind == Client && "http.method" !in span.attributes
    requires span.name == "database.query" || span.name == "redis.query"
    ensures var d := DependencyFor(env, span, Database);
            var spanType := GetString(span.attributes, "span.type");
            && SpanOutcome(env, span).items[0] == DependencyItem(d)
            && d.name == GetString(span.attributes, "db.type")
            && d.commandName == GetString(span.attributes, "resource.name")
            && d.target == None && d.resultCode == None
            && (d.dependencyType.Some? <==> spanType.Some?)
            && (spanType == Some("sql") ==> d.dependencyType == Some("SQL"))
            && (spanType == Some("redis") ==> d.dependencyType == Some("Redis"))
            && (spanType.Some? && spanType.value != "sql" && spanType.value != "redis" ==> d.dependencyType == spanType)
  {
    PrimaryShape(env, span, DependencyItem(DependencyFor(env, span, Database)));
  }

  /** Any other CLIENT span is a dependency that carries only the span's name. */
  lemma GenericDependency(env: Environment, span: SpanData)
    requires span.kind == Client && "http.method" !in span.attributes
    requires span.name != "database.query" && span.name != "redis.query"
    ensures var d := DependencyFor(env, span, Generic);
            && SpanOutcome(env, span).items[0] == DependencyItem(d)
            && d.name == Some(span.name) && d.dependencyType == None
            && d.target == None && d.commandName == None && d.resultCode == None
  {
    PrimaryShape(env, span, DependencyItem(DependencyFor(env, span, Generic)));
  }

  /**
   * What every dependency takes from its span, whatever its subtype: its own id, its context,
   * the start as its timestamp, the wrapped end-minus-start as its duration, the status as its
   * success, and the status description, when there is one, as "statusDescription"; a
   * non-HTTP dependency has no other property.
   */
  lemma DependencyShared(env: Environment, span: SpanData, kind: DependencyKind)
    requires Classify(span) == Some(DependencySpan(kind))
    ensures var d := DependencyFor(env, span, kind);
            && SpanOutcome(env, span).items[0] == DependencyItem(d)
            && d.id == Some(OwnId(span))
            && d.context == ChildContext(span.traceId, span.parentSpanId)
            && d.timestamp == Some(NanosToMillis(span.startEpochNanos))
            && d.duration == Some(NanosToMillis(SubtractLong(span.endEpochNanos, span.startEpochNanos)))
            && d.success == Some(span.status.isOk)
            && ("statusDescription" in d.properties <==> span.status.description.Some?)
            && (span.status.description.Some? ==> d.properties["statusDescription"] == span.status.description.value)
            && (kind != Http ==> d.properties.Keys <= {"statusDescription"})
  {
    PrimaryShape(env, span, DependencyItem(DependencyFor(env, span, kind)));
  }

  /**
   * Every item a span yields belongs to the span's trace: its operation id is the trace id,
   * on the span's own item, its extra exception and its events' records alike.
   */
  lemma SpanItemsInTrace(env: Environment, span: SpanData)
    ensures forall item :: item in SpanOutcome(env, span).items ==> item.Context().id == Some(span.traceId.lowerBase16)
  {
    match Classify(span)
    case None =>
    case Some(LogSpan) =>
      LogRecordShape(env, GetString(span.attributes, "message"), span.startEpochNanos, span.attributes,
                     span.traceId, span.parentSpanId);
    case Some(RequestSpan) =>
      EventsParentedOnSpan(env, span, span.timedEvents);
      PrimaryShape(env, span, RequestItem(RequestFor(span)));
    case Some(DependencySpan(kind)) =>
      EventsParentedOnSpan(env, span, span.timedEvents);
      PrimaryShape(env, span, DependencyItem(DependencyFor(env, span, kind)));
  }

  /** The primary item of a Request or dependency span: its own id, parented only on a valid parent. */
  lemma PrimaryIds(env: Environment, span: SpanData)
    requires Classify(span).Some? && Classify(span) != Some(LogSpan)
    ensures var first := SpanOutcome(env, span).items[0];
            && first.Context().parentId
               == (if span.parentSpanId.isValid then Some(Combine(span.traceId.lowerBase16, span.parentSpanId)) else None)
            && (first.RequestItem? ==> first.request.id == Some(OwnId(span)))
            && (first.DependencyItem? ==> first.dependency.id == Some(OwnId(span)))
            && (first.RequestItem? || first.DependencyItem?)
  {
    match Classify(span)
    case Some(RequestSpan) =>
      PrimaryShape(env, span, RequestItem(RequestFor(span)));
    case Some(DependencySpan(kind)) =>
      PrimaryShape(env, span, DependencyItem(DependencyFor(env, span, kind)));
  }

  // ----- Targets and durations

  /** "GET" on a url that parses with host "example.com", port 8080 and path "/path". */
  lemma HttpExample(env: Environment, span: SpanData, url: string)
    requires span.kind == Client
    requires span.attributes == map["http.method" := StringValue("GET"), "http.url" := StringValue(url)]
    requires env.parseUri(url) == Some(Uri(Some("example.com"), 8080, Some("/path")))
    ensures DependencyFor(env, span, Http).name == Some("GET /path")
    ensures DependencyFor(env, span, Http).target == Some("example.com:8080")
  {
    assert GetString(span.attributes, "http.method") == Some("GET");
    assert GetString(span.attributes, "http.url") == Some(url);
    assert ConcatForm(Some("GET")) + " " + "/path" == "GET /path";
    assert Decimal(8080) == "8080";
    assert ConcatForm(Some("example.com")) + ":" + "8080" == "example.com:8080";
  }

  /** The same on port 443: the target is the bare host, and an empty path names "GET /". */
  lemma HttpsExample(env: Environment, span: SpanData, url: string)
    requires span.kind == Client
    requires span.attributes == map["http.method" := StringValue("GET"), "http.url" := StringValue(url)]
    requires env.parseUri(url) == Some(Uri(Some("example.com"), 443, Some("")))
    ensures DependencyFor(env, span, Http).name == Some("GET /")
    ensures DependencyFor(env, span, Http).target == Some("example.com")
  {
    assert GetString(span.attributes, "http.method") == Some("GET");
    assert GetString(span.attributes, "http.url") == Some(url);
    assert ConcatForm(Some("GET")) + " /" == "GET /";
  }

  /**
   * For a span that ends no earlier than it starts, at non-negative times, the duration is
   * the elapsed nanoseconds truncated to whole milliseconds.
   */
  lemma DurationTruncates(span: SpanData)
    requires 0 <= span.startEpochNanos <= span.endEpochNanos
    ensures var elapsed := span.endEpochNanos - span.startEpochNanos;
            && DurationMillis(span) >= 0
            && DurationMillis(span) * 1_000_000 <= elapsed < DurationMillis(span) * 1_000_000 + 1_000_000
  {
  }
}
