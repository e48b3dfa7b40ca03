# Azure SDK tracing bridge — verified model

This project models the core of the OpenTelemetry instrumentation for the
Azure SDK (`plugins/node/opentelemetry-instrumentation-azure-sdk`). The
bridge lets the Azure SDK's small tracing abstraction run on the
OpenTelemetry API. The model covers three parts:

- **Environment flag cache** (`configuration.dfy`). The two known flags
  are `AZURE_TRACING_DISABLED` and `AZURE_HTTP_TRACING_CHILDREN_DISABLED`.
  Each is looked up under its exact name, then under its lower-cased name.
  The raw value, which may be undefined, is memoized in a process-wide
  table. It is then coerced to a boolean: absent, `""`, `"0"` and
  `"false"` in any letter case mean false. The table is the class
  `EnvironmentCache` with a `map` field. The process environment is an
  input: `None` when there is no `process.env`.
- **Span adapter** (`span_wrapper.dfy`). This is the class
  `OpenTelemetrySpanWrapper` over a backend span. The backend span
  (`otel_api.dfy`) logs every call made on it. So each wrapper method is
  specified by exactly which calls it appends, and in what order.
- **`startSpan`** (`instrumenter.dfy`). It picks the working context and
  consults the two flags. It then either starts a real span through the
  tracer or substitutes the no-op span over `INVALID_SPAN_CONTEXT`. It may
  suppress tracing for descendants. It returns the wrapper with a context
  whose active span is that same span. The method is proved against the
  pure function `StartDecision` and the context derivations
  `SuppressTracing` / `SetSpan` over an immutable `Ctx` value.

`text.dfy` holds ASCII case mapping (`toLowerCase`, `toUpperCase`,
`startsWith`). `wrappers.dfy` holds `Option`, which stands for "value or
undefined".

## Model

| member | source | states |
|---|---|---|
| Text.ToLower | plugins/node/opentelemetry-instrumentation-azure-sdk/src/configuration.ts:46 | lower-casing keeps the length and lower-cases every character in place |
| Text.ToUpper | plugins/node/opentelemetry-instrumentation-azure-sdk/src/instrumenter.ts:61 | upper-casing keeps the length and upper-cases every character in place |
| Configuration.Lookup | plugins/node/opentelemetry-instrumentation-azure-sdk/src/configuration.ts:52 | the exact key wins whenever it is defined, even as `""`; the lower-cased key is used only when the exact one is undefined; the result is undefined iff both are |
| Configuration.Loaded | plugins/node/opentelemetry-instrumentation-azure-sdk/src/configuration.ts:50-55 | with an environment, the key is stored with the looked-up value, even when undefined; without one, nothing changes; other keys never change |
| Configuration.Resolved | plugins/node/opentelemetry-instrumentation-azure-sdk/src/configuration.ts:42-45 | a cached key is never re-read; with an environment the key is cached afterwards; without one nothing is cached; other entries are unchanged |
| Configuration.Coerce | plugins/node/opentelemetry-instrumentation-azure-sdk/src/configuration.ts:46-47 | the coercion is false exactly for absent, `""`, `"0"` and `"false"` in any letter case, and true for every other string |
| Configuration.Flag | plugins/node/opentelemetry-instrumentation-azure-sdk/src/configuration.ts:42-47 | the answer of `envVarToBoolean`: from the cached value when the key is cached, otherwise from the environment as looked up now, and false when there is neither |
| Configuration.CoerceExamples | plugins/node/opentelemetry-instrumentation-azure-sdk/src/configuration.ts:36-47 | `"false"`, `"FALSE"`, `"False"`, `"0"`, `""` and absent are false; `"true"`, `"1"`, `"yes"` and `" 0"` are true |
| Configuration.FlagIsStable | plugins/node/opentelemetry-instrumentation-azure-sdk/src/configuration.ts:42-47 | once a call found an environment or the key was cached, a later call leaves the table alone and gives the same answer, even if the environment changed |
| Configuration.NoEnvironmentIsFalse | plugins/node/opentelemetry-instrumentation-azure-sdk/src/configuration.ts:42-55 | without `process.env` an uncached flag is false and stays uncached, so the next call loads again |
| Configuration.EnvironmentCache.constructor | plugins/node/opentelemetry-instrumentation-azure-sdk/src/configuration.ts:31-34 | the cache starts empty |
| Configuration.EnvironmentCache.LoadEnvironmentVariable | plugins/node/opentelemetry-instrumentation-azure-sdk/src/configuration.ts:50-55 | the new table is `Loaded` of the old one |
| Configuration.EnvironmentCache.EnvVarToBoolean | plugins/node/opentelemetry-instrumentation-azure-sdk/src/configuration.ts:42-48 | the new table is `Resolved` of the old one; the answer is `Flag` of the old table, i.e. not an off-value for what is now cached |
| OtelApi.WrapSpanContext | plugins/node/opentelemetry-instrumentation-azure-sdk/src/instrumenter.ts:52 | the no-op span is fresh, over the given span context, never recording, with no calls |
| OtelApi.TracerProvider.StartSpan | plugins/node/opentelemetry-instrumentation-azure-sdk/src/instrumenter.ts:55-57 | one start request for (package name, version, name, options, parent) is logged; the span records iff sampled and the parent is not suppressed |
| SpanWrapper.StatusCalls | plugins/node/opentelemetry-instrumentation-azure-sdk/src/spanWrapper.ts:26-40 | `"error"` with a truthy detail: ERROR with message `toString(E)`, then one `recordException(E)`; `"error"` with a missing or falsy detail: one plain ERROR; `"success"`: one OK; any other tag: nothing |
| SpanWrapper.ErrorWithDetail | plugins/node/opentelemetry-instrumentation-azure-sdk/src/spanWrapper.ts:27-33 | a truthy error detail gives exactly `[setStatus(ERROR, toString(E)), recordException(E)]` |
| SpanWrapper.ErrorWithoutDetail | plugins/node/opentelemetry-instrumentation-azure-sdk/src/spanWrapper.ts:34-36 | a missing detail or `""` gives exactly `[setStatus(ERROR)]` |
| SpanWrapper.OpenTelemetrySpanWrapper.constructor | plugins/node/opentelemetry-instrumentation-azure-sdk/src/spanWrapper.ts:20-24 | the wrapper holds the given span in a constant field, so it never changes |
| SpanWrapper.OpenTelemetrySpanWrapper.SetStatus | plugins/node/opentelemetry-instrumentation-azure-sdk/src/spanWrapper.ts:26-40 | appends exactly `StatusCalls(status)` to the backend span's calls |
| SpanWrapper.OpenTelemetrySpanWrapper.SetAttribute | plugins/node/opentelemetry-instrumentation-azure-sdk/src/spanWrapper.ts:42-46 | null or undefined appends nothing; any other value, including `0`, `false` and `""`, appends one unchanged `setAttribute(name, value)` |
| SpanWrapper.OpenTelemetrySpanWrapper.End | plugins/node/opentelemetry-instrumentation-azure-sdk/src/spanWrapper.ts:48-50 | appends exactly one `end` |
| SpanWrapper.OpenTelemetrySpanWrapper.RecordException | plugins/node/opentelemetry-instrumentation-azure-sdk/src/spanWrapper.ts:52-54 | appends exactly one `recordException` with the payload verbatim |
| SpanWrapper.OpenTelemetrySpanWrapper.IsRecording | plugins/node/opentelemetry-instrumentation-azure-sdk/src/spanWrapper.ts:56-58 | returns the backend span's recording state and appends no call |
| SpanWrapper.OpenTelemetrySpanWrapper.Unwrap | plugins/node/opentelemetry-instrumentation-azure-sdk/src/spanWrapper.ts:66-68 | returns exactly the wrapped span |
| Instrumenter.WorkingContext | plugins/node/opentelemetry-instrumentation-azure-sdk/src/instrumenter.ts:47 | the working context is the options' tracing context when present, otherwise the active context |
| Instrumenter.StartDecision | plugins/node/opentelemetry-instrumentation-azure-sdk/src/instrumenter.ts:50-65 | a real span is started iff tracing is not disabled; descendants are suppressed iff not disabled, the HTTP flag is on, and the name starts with "HTTP" in any letter case |
| Instrumenter.ReturnedContext | plugins/node/opentelemetry-instrumentation-azure-sdk/src/instrumenter.ts:68-71 | the returned context has the new span active; it is suppressed iff the working context was or suppression was decided; other entries are kept |
| Instrumenter.StartSpan | plugins/node/opentelemetry-instrumentation-azure-sdk/src/instrumenter.ts:43-72 | disabled: no-op span over the invalid span context, no tracer call, HTTP flag neither read nor cached; otherwise one span is started under the unsuppressed working context; the returned context's active span is the wrapped span |
| Instrumenter.HttpPrefixExamples | plugins/node/opentelemetry-instrumentation-azure-sdk/src/instrumenter.ts:61 | `"http get"` and `"HTTPS x"` have the HTTP prefix; `"GET widget"` and `"HTT"` do not |
| Instrumenter.DisabledSpanNeverRecords | plugins/node/opentelemetry-instrumentation-azure-sdk/src/instrumenter.ts:50-52 | with `AZURE_TRACING_DISABLED` on, the span handed back never records and no real span is started |
| Instrumenter.HttpChildIsSuppressed | plugins/node/opentelemetry-instrumentation-azure-sdk/src/instrumenter.ts:59-65 | with only the HTTP flag on, an `"HTTP GET"` span records as sampled, while a child started under its context does not record |

## Left out

- `withContext` (instrumenter.ts:73-87) is a direct forward to the OpenTelemetry API's `context.with`. The scoped activation and its restore-on-error lie in that library, which is not part of this model.
- `parseTraceparentHeader` and `createRequestHeaders` (instrumenter.ts:89-107) forward to the W3C Trace Context propagator's `extract` and `inject`. The header parsing and formatting live in that library and are not part of this model. So the header round trip is not stated.
- `instrumentation.ts` is module-registration glue with no decision logic. It is not part of this model.
- `toSpanOptions` (from `./transformations`) is not part of this model. Its result is the `translated` input of `StartSpan`.
- `InstrumenterSpanOptions` keeps only what `startSpan` reads itself: package name, package version and tracing context. Span kind, links and attributes reach the backend only through `toSpanOptions`.
- `StartSpan` treats `spanOptions` as always present, as its TypeScript signature requires. The `?.` at instrumenter.ts:47 has no error path in the model.
- `context.active()`, the backend's sampling decision and its generated span ids are inputs to `StartSpan`. The process environment is an input to the cache methods.
- Backend behaviour is kept to the calls the bridge makes. A span is recording iff it was sampled at creation and has not ended. A span started under a suppressed context is the non-recording span over the invalid span context. Exporting, timestamps and the effect of calls on a non-recording span are left out.
- `Error.prototype.toString` is not modelled. An `Error` payload carries the text its `toString()` returns (`ErrorException.rendered`).
- Case mapping is ASCII-only. Full Unicode `toLowerCase`/`toUpperCase` is not modelled. The compared words (`"false"`, `"0"`, `"HTTP"`, the key names) are ASCII.
- Attribute numbers are integers. Floating-point attribute values are not modelled.
- Concurrent first reads of the same cache key are not modelled. JavaScript runs this code on one thread.
