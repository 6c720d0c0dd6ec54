/**
 * The telemetry items of the Application Insights SDK, as far as the exporter fills them in
 * and the trace filter reads them, and the TelemetryClient the exporter hands them to.
 *
 * A field the exporter sets through a setter is an Option: None means the exporter never
 * set it, so it keeps whatever default the SDK's telemetry class gives it. An item that is
 * filled in step by step is a value the exporter's methods update, setter by setter.
 */
module Telemetry {
  import opened Wrappers

  /** SeverityLevel in declaration order: Verbose < Information < Warning < Error < Critical. */
  datatype SeverityLevel = Verbose | Information | Warning | Error | Critical {

    /** The enum's ordinal, which Enum.compareTo compares. */
    function Ordinal(): nat {
      match this
      case Verbose => 0
      case Information => 1
      case Warning => 2
      case Error => 3
      case Critical => 4
    }

    /** `this.compareTo(other) >= 0` */
    predicate AtLeast(other: SeverityLevel) {
      Ordinal() >= other.Ordinal()
    }
  }

  /** The operation part of a telemetry item's context: its operation id and parent id. */
  datatype OperationContext = OperationContext(id: Option<string>, parentId: Option<string>)

  /** RequestTelemetry */
  datatype RequestTelemetry = RequestTelemetry(
    name: Option<string>, url: Option<string>, responseCode: Option<string>, id: Option<string>,
    timestamp: Option<int>, duration: Option<int>, success: Option<bool>,
    context: OperationContext, properties: map<string, string>)

  /** RemoteDependencyTelemetry */
  datatype RemoteDependencyTelemetry = RemoteDependencyTelemetry(
    name: Option<string>, dependencyType: Option<string>, target: Option<string>,
    commandName: Option<string>, resultCode: Option<string>, id: Option<string>,
    timestamp: Option<int>, duration: Option<int>, success: Option<bool>,
    context: OperationContext, properties: map<string, string>)

  /** TraceTelemetry */
  datatype TraceTelemetry = TraceTelemetry(
    message: Option<string>, severityLevel: Option<SeverityLevel>,
    context: OperationContext, properties: map<string, string>)

  /**
   * ExceptionTelemetry. `exceptions` keeps the stack-trace text whose parsed form
   * (Exceptions.minimalParse) the SDK attaches to the item.
   */
  datatype ExceptionTelemetry = ExceptionTelemetry(
    exceptions: Option<string>, severityLevel: Option<SeverityLevel>, timestamp: Option<int>,
    context: OperationContext, properties: map<string, string>)

  /** The Telemetry interface: any of the four kinds of item. */
  datatype TelemetryItem =
    | RequestItem(request: RequestTelemetry)
    | DependencyItem(dependency: RemoteDependencyTelemetry)
    | TraceItem(trace: TraceTelemetry)
    | ExceptionItem(exception: ExceptionTelemetry)
  {
    /** getContext().getOperation() */
    function Context(): OperationContext {
      match this
      case RequestItem(t) => t.context
      case DependencyItem(t) => t.context
      case TraceItem(t) => t.context
      case ExceptionItem(t) => t.context
    }

    /** getProperties() */
    function Properties(): map<string, string> {
      match this
      case RequestItem(t) => t.properties
      case DependencyItem(t) => t.properties
      case TraceItem(t) => t.properties
      case ExceptionItem(t) => t.properties
    }
  }

  const EmptyContext := OperationContext(None, None)

  /** `new RequestTelemetry()` */
  function NewRequest(): RequestTelemetry {
    RequestTelemetry(None, None, None, None, None, None, None, EmptyContext, map[])
  }

  /** `new RemoteDependencyTelemetry()` */
  function NewRemoteDependency(): RemoteDependencyTelemetry {
    RemoteDependencyTelemetry(None, None, None, None, None, None, None, None, None, EmptyContext, map[])
  }

  /** `new TraceTelemetry(message, severityLevel)` */
  function NewTrace(message: Option<string>, severityLevel: Option<SeverityLevel>): TraceTelemetry {
    TraceTelemetry(message, severityLevel, EmptyContext, map[])
  }

  /** `new ExceptionTelemetry()` */
  function NewException(): ExceptionTelemetry {
    ExceptionTelemetry(None, None, None, EmptyContext, map[])
  }

  /**
   * The sink. Delivery is not part of this model: whatever it is handed is appended to
   * `items`, in order.
   */
  class TelemetryClient {
    var items: seq<TelemetryItem>

    constructor ()
      ensures items == []
    {
      items := [];
    }

    method Track(telemetry: TelemetryItem)
      modifies this
      ensures items == old(items) + [telemetry]
    {
      items := items + [telemetry];
    }

    method TrackTrace(telemetry: TraceTelemetry)
      modifies this
      ensures items == old(items) + [TraceItem(telemetry)]
    {
      items := items + [TraceItem(telemetry)];
    }

    method TrackException(telemetry: ExceptionTelemetry)
      modifies this
      ensures items == old(items) + [ExceptionItem(telemetry)]
    {
      items := items + [ExceptionItem(telemetry)];
    }
  }
}
