/**
 * The OpenTelemetry side: the SpanData the exporter receives and the result code it returns.
 * Trace and span ids are kept as their lower-case hexadecimal rendering (toLowerBase16); a
 * span id also carries SpanId.isValid.
 */
module Spans {
  import opened Wrappers
  import opened JavaRuntime

  datatype TraceId = TraceId(lowerBase16: string)

  datatype SpanId = SpanId(lowerBase16: string, isValid: bool)

  /** Span.Kind */
  datatype Kind = Internal | Server | Client | Producer | Consumer

  /** AttributeValue by its Type: STRING, LONG, and the kinds the exporter never reads (BOOLEAN, DOUBLE). */
  datatype AttributeValue = StringValue(stringValue: string) | LongValue(longValue: Int64) | OtherValue

  type Attributes = map<string, AttributeValue>

  datatype Status = Status(isOk: bool, description: Option<string>)

  datatype TimedEvent = TimedEvent(name: string, epochNanos: Int64, attributes: Attributes)

  datatype SpanData = SpanData(
    traceId: TraceId,
    spanId: SpanId,
    parentSpanId: SpanId,
    name: string,
    kind: Kind,
    startEpochNanos: Int64,
    endEpochNanos: Int64,
    status: Status,
    attributes: Attributes,
    timedEvents: seq<TimedEvent>)

  /** SpanExporter.ResultCode, as far as this exporter returns it. */
  datatype ResultCode = Success | FailedNotRetryable
}
