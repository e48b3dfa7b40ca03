/**
 * The part of the tracing backend's public API that the bridge calls:
 * spans (as objects that log the calls made on them), immutable contexts
 * with their two derivations, the no-op span over the invalid span
 * context, and the tracer's `startSpan` (as a log of start requests).
 * Sampling and id generation belong to the backend; they are inputs here.
 */
module OtelApi {
  import opened Wrappers

  /** `SpanStatusCode`. */
  datatype StatusCode = Unset | Ok | Error

  /** The payload of `recordException`: a string or an `Error` object. */
  datatype Exception =
    | StringException(text: string)
      /** An `Error` object; `rendered` is what its `toString()` returns. */
    | ErrorException(rendered: string)

  /** A JavaScript value handed to `setAttribute` (numbers as integers). */
  datatype JsValue =
    | Undefined
    | Null
    | Str(s: string)
    | Num(n: int)
    | Bool(b: bool)
    | Arr(elements: seq<JsValue>)

  /** One call made on a backend span. */
  datatype BackendCall =
    | SetStatusCall(code: StatusCode, message: Option<string>)
    | SetAttributeCall(name: string, value: JsValue)
    | EndCall
    | RecordExceptionCall(exception: Exception)

  /** Identity of a span: trace id, span id (lower-case hex) and trace flags. */
  datatype SpanContext = SpanContext(traceId: string, spanId: string, traceFlags: nat)

  /** `INVALID_SPAN_CONTEXT`: all-zero ids, no flags. */
  const InvalidSpanContext := SpanContext("00000000000000000000000000000000", "0000000000000000", 0)

  /** A backend span: its identity, whether it was created recording, and the calls made on it. */
  class Span {
    const spanContext: SpanContext
    /** The backend's recording decision at creation time. */
    const sampled: bool
    var ended: bool
    var calls: seq<BackendCall>

    constructor(spanContext: SpanContext, sampled: bool)
      ensures this.spanContext == spanContext && this.sampled == sampled
      ensures !ended && calls == []
    {
      this.spanContext := spanContext;
      this.sampled := sampled;
      ended := false;
      calls := [];
    }

    method SetStatus(code: StatusCode, message: Option<string>)
      modifies this
      ensures calls == old(calls) + [SetStatusCall(code, message)] && ended == old(ended)
    {
      calls := calls + [SetStatusCall(code, message)];
    }

    method SetAttribute(name: string, value: JsValue)
      modifies this
      ensures calls == old(calls) + [SetAttributeCall(name, value)] && ended == old(ended)
    {
      calls := calls + [SetAttributeCall(name, value)];
    }

    method End()
      modifies this
      ensures calls == old(calls) + [EndCall] && ended
    {
      calls := calls + [EndCall];
      ended := true;
    }

    method RecordException(exception: Exception)
      modifies this
      ensures calls == old(calls) + [RecordExceptionCall(exception)] && ended == old(ended)
    {
      calls := calls + [RecordExceptionCall(exception)];
    }

    /** A span records from creation (if sampled) until it is ended. */
    method IsRecording() returns (r: bool)
      ensures r <==> sampled && !ended
    {
      r := sampled && !ended;
    }
  }

  /**
   * An immutable context: its active span, whether tracing is suppressed
   * for spans started under it, and every other entry it carries.
   */
  datatype Ctx = Ctx(active: Option<Span>, suppressed: bool, entries: map<string, string>)

  /** `suppressTracing(ctx)`: the same context, marked so that spans started under it are suppressed. */
  function SuppressTracing(c: Ctx): Ctx {
    c.(suppressed := true)
  }

  /** `trace.setSpan(ctx, span)`: the same context with `span` as its active span. */
  function SetSpan(c: Ctx, s: Span): Ctx {
    c.(active := Some(s))
  }

  /** `trace.wrapSpanContext(sc)`: a fresh non-recording span over `sc`. */
  method WrapSpanContext(sc: SpanContext) returns (s: Span)
    ensures fresh(s) && s.spanContext == sc && !s.sampled
    ensures !s.ended && s.calls == []
  {
    s := new Span(sc, false);
  }

  /** `SpanKind`. */
  datatype SpanKind = Internal | Server | Client | Producer | Consumer

  /** The backend's span options (kind and initial attributes). */
  datatype SpanOptions = SpanOptions(kind: SpanKind, attributes: map<string, JsValue>)

  /** One `getTracer(tracerName, tracerVersion).startSpan(name, options, parent)` request. */
  datatype StartRequest = StartRequest(
    tracerName: string, tracerVersion: Option<string>,
    name: string, options: SpanOptions, parent: Ctx)

  /** The global tracer provider, seen through the spans it was asked to start. */
  class TracerProvider {
    var started: seq<StartRequest>

    constructor()
      ensures started == []
    {
      started := [];
    }

    /**
     * Start a span. Under a suppressed parent the backend hands back a
     * non-recording span over the invalid span context; otherwise the span
     * gets the generated `ids` and records iff the sampler says so.
     */
    method StartSpan(tracerName: string, tracerVersion: Option<string>, name: string,
                     options: SpanOptions, parent: Ctx, sampled: bool, ids: SpanContext)
      returns (s: Span)
      modifies this
      ensures started == old(started) + [StartRequest(tracerName, tracerVersion, name, options, parent)]
      ensures fresh(s) && !s.ended && s.calls == []
      ensures s.sampled <==> sampled && !parent.suppressed
      ensures s.spanContext == if parent.suppressed then InvalidSpanContext else ids
    {
      started := started + [StartRequest(tracerName, tracerVersion, name, options, parent)];
      if parent.suppressed {
        s := WrapSpanContext(InvalidSpanContext);
      } else {
        s := new Span(ids, sampled);
      }
    }
  }
}
