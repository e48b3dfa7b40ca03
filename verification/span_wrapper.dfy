/**
 * The span adapter: a wrapper that lets one backend span satisfy the
 * vendor SDK's minimal span contract by translating each call into calls
 * on the backend span.
 */
module SpanWrapper {
  import opened Wrappers
  import opened OtelApi

  /** The vendor SDK's `SpanStatus`: a status tag and an optional error detail. */
  datatype SpanStatus = SpanStatus(status: string, error: Option<Exception>)

  /** JavaScript truthiness of an error detail: a string is truthy iff non-empty, an object always. */
  predicate Truthy(e: Exception) {
    match e
    case StringException(text) => text != ""
    case ErrorException(_) => true
  }

  /** `e.toString()`: a string is itself; an `Error` object renders as its backend-defined text. */
  function ExceptionText(e: Exception): string {
    match e
    case StringException(text) => text
    case ErrorException(rendered) => rendered
  }

  /** The error detail of `status` when it is present and truthy. */
  predicate HasErrorDetail(status: SpanStatus) {
    status.error.Some? && Truthy(status.error.value)
  }

  /** The backend calls `setStatus(status)` makes, in order. */
  function StatusCalls(status: SpanStatus): (r: seq<BackendCall>)
    // every accepted status sets the backend status once, first; any other tag does nothing
    ensures r == [] <==> status.status != "error" && status.status != "success"
    ensures r != [] ==> r[0].SetStatusCall?
    ensures r != [] ==> (r[0].code == Error <==> status.status == "error")
    ensures r != [] ==> (r[0].code == Ok <==> status.status == "success")
    // a message is given iff an exception is recorded: exactly for an error with a truthy detail
    ensures |r| == 2 <==> status.status == "error" && HasErrorDetail(status)
    ensures r != [] ==> (r[0].message.Some? <==> |r| == 2)
    ensures |r| == 2 ==> r[0].message == Some(ExceptionText(status.error.value))
    ensures |r| == 2 ==> r[1] == RecordExceptionCall(status.error.value)
    ensures |r| <= 2
  {
    if status.status == "error" then
      if HasErrorDetail(status) then
        [SetStatusCall(Error, Some(ExceptionText(status.error.value))),
         RecordExceptionCall(status.error.value)]
      else
        [SetStatusCall(Error, None)]
    else if status.status == "success" then
      [SetStatusCall(Ok, None)]
    else
      []
  }

  /** `value === null || value === undefined`. */
  predicate IsNullish(value: JsValue) {
    value.Null? || value.Undefined?
  }

  /** `OpenTelemetrySpanWrapper`: holds one backend span for its whole life. */
  class OpenTelemetrySpanWrapper {
    const span: Span

    constructor(span: Span)
      ensures this.span == span
    {
      this.span := span;
    }

    method SetStatus(status: SpanStatus)
      modifies span
      ensures span.calls == old(span.calls) + StatusCalls(status)
      ensures span.ended == old(span.ended)
    {
      if status.status == "error" {
        if status.error.Some? && Truthy(status.error.value) {
          span.SetStatus(Error, Some(ExceptionText(status.error.value)));
          RecordException(status.error.value);
        } else {
          span.SetStatus(Error, None);
        }
      } else if status.status == "success" {
        span.SetStatus(Ok, None);
      }
    }

    /** Forwards the attribute unless the value is null or undefined; falsy values such as `0`, `false` and `""` are forwarded. */
    method SetAttribute(name: string, value: JsValue)
      modifies span
      ensures IsNullish(value) ==> span.calls == old(span.calls)
      ensures !IsNullish(value) ==> span.calls == old(span.calls) + [SetAttributeCall(name, value)]
      ensures span.ended == old(span.ended)
    {
      if value != Null && value != Undefined {
        span.SetAttribute(name, value);
      }
    }

    method End()
      modifies span
      ensures span.calls == old(span.calls) + [EndCall]
      ensures span.ended
    {
      span.End();
    }

    method RecordException(exception: Exception)
      modifies span
      ensures span.calls == old(span.calls) + [RecordExceptionCall(exception)]
      ensures span.ended == old(span.ended)
    {
      span.RecordException(exception);
    }

    /** The backend span's recording flag; no call is logged. */
    method IsRecording() returns (r: bool)
      ensures r <==> span.sampled && !span.ended
    {
      r := span.IsRecording();
    }

    /** The wrapped span, exactly the one given to the constructor. */
    method Unwrap() returns (s: Span)
      ensures s == span
    {
      s := span;
    }
  }

  /** A status set with a truthy error detail leaves exactly one status call and exactly one exception record, in that order. */
  lemma ErrorWithDetail(e: Exception)
    requires Truthy(e)
    ensures StatusCalls(SpanStatus("error", Some(e)))
         == [SetStatusCall(Error, Some(ExceptionText(e))), RecordExceptionCall(e)]
  {
  }

  /** A missing or falsy error detail (including "") gives one plain error status and no exception record. */
  lemma ErrorWithoutDetail(error: Option<Exception>)
    requires error.None? || !Truthy(error.value)
    ensures StatusCalls(SpanStatus("error", error)) == [SetStatusCall(Error, None)]
  {
  }
}
