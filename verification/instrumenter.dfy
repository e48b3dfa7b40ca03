/**
 * The instrumenter bridge's `startSpan`: pick the working context,
 * consult the two environment flags, start a real span or substitute the
 * no-op one, possibly suppress tracing for descendants, and hand back the
 * wrapped span with a context whose active span is that span.
 *
 * The process-wide environment cache, the global tracer provider and
 * `context.active()` are passed in explicitly.
 */
module Instrumenter {
  import opened Wrappers
  import opened Text
  import opened Configuration
  import opened OtelApi
  import opened SpanWrapper

  /** The vendor SDK's `InstrumenterSpanOptions`, as far as `startSpan` reads them directly. */
  datatype InstrumenterSpanOptions = InstrumenterSpanOptions(
    packageName: string, packageVersion: Option<string>, tracingContext: Option<Ctx>)

  /** `spanOptions.tracingContext || context.active()`. */
  function WorkingContext(options: InstrumenterSpanOptions, active: Ctx): (c: Ctx)
    ensures options.tracingContext.Some? ==> c == options.tracingContext.value
    ensures options.tracingContext.None? ==> c == active
  {
    options.tracingContext.GetOr(active)
  }

  /** Reference notion: the first four characters spell "HTTP" in any letter case. */
  predicate HasHttpPrefix(name: string) {
    |name| >= 4 && EqualsIgnoreCase(name[..4], "HTTP")
  }

  /** What `startSpan` decides: start a real span, and suppress tracing for descendants. */
  datatype Decision = Decision(startsRealSpan: bool, suppressesChildren: bool)

  /** The decision, from the two flags and the span name. */
  function StartDecision(tracingDisabled: bool, httpChildrenDisabled: bool, name: string): (d: Decision)
    ensures d.startsRealSpan <==> !tracingDisabled
    ensures d.suppressesChildren <==> !tracingDisabled && httpChildrenDisabled && HasHttpPrefix(name)
  {
    if tracingDisabled then
      Decision(false, false)
    else
      Decision(true, httpChildrenDisabled && StartsWith(ToUpper(name), "HTTP"))
  }

  /** The context handed back: the working context, suppressed if so decided, with `span` active. */
  function ReturnedContext(working: Ctx, d: Decision, span: Span): (c: Ctx)
    ensures c.active == Some(span)
    ensures c.suppressed <==> working.suppressed || d.suppressesChildren
    ensures c.entries == working.entries
  {
    SetSpan(if d.suppressesChildren then SuppressTracing(working) else working, span)
  }

  /**
   * `startSpan(name, spanOptions)`. `translated` stands for
   * `toSpanOptions(spanOptions)`; `sampled` and `ids` are the backend's
   * sampling decision and generated ids for a real span.
   */
  method StartSpan(name: string, options: InstrumenterSpanOptions, translated: SpanOptions,
                   cache: EnvironmentCache, env: ProcessEnv, tracer: TracerProvider,
                   active: Ctx, sampled: bool, ids: SpanContext)
    returns (wrapper: OpenTelemetrySpanWrapper, tracingContext: Ctx)
    modifies cache, tracer
    ensures fresh(wrapper) && fresh(wrapper.span)
    ensures wrapper.span.calls == [] && !wrapper.span.ended
    ensures
      var working := WorkingContext(options, active);
      var disabled := Flag(old(cache.entries), AzureTracingDisabled, env);
      var afterDisabled := Resolved(old(cache.entries), AzureTracingDisabled, env);
      var http := !disabled && Flag(afterDisabled, AzureHttpTracingChildrenDisabled, env);
      var d := StartDecision(disabled, http, name);
      // the returned context is derived from the working context, with the returned span active
      && tracingContext == ReturnedContext(working, d, wrapper.span)
      // the HTTP flag is consulted (and cached) only when tracing is not disabled
      && cache.entries == (if disabled then afterDisabled
                           else Resolved(afterDisabled, AzureHttpTracingChildrenDisabled, env))
      // disabled: the no-op span over the invalid span context, and no tracer call
      && (!d.startsRealSpan ==>
            tracer.started == old(tracer.started)
            && wrapper.span.spanContext == InvalidSpanContext && !wrapper.span.sampled)
      // otherwise one real span is started, under the working context as it was before any suppression
      && (d.startsRealSpan ==>
            tracer.started == old(tracer.started)
              + [StartRequest(options.packageName, options.packageVersion, name, translated, working)]
            && (wrapper.span.sampled <==> sampled && !working.suppressed))
  {
    var ctx := WorkingContext(options, active);
    var span: Span;
    var disabled := cache.EnvVarToBoolean(AzureTracingDisabled, env);
    if disabled {
      // only this span is disabled, not downstream spans
      span := WrapSpanContext(InvalidSpanContext);
    } else {
      span := tracer.StartSpan(options.packageName, options.packageVersion, name, translated, ctx, sampled, ids);
      var http := cache.EnvVarToBoolean(AzureHttpTracingChildrenDisabled, env);
      if http && StartsWith(ToUpper(name), "HTTP") {
        ctx := SuppressTracing(ctx);
      }
    }
    wrapper := new OpenTelemetrySpanWrapper(span);
    tracingContext := SetSpan(ctx, span);
  }

  /** Sample names: "http get" and "HTTPS x" have the prefix, "GET widget" and "HTT" do not. */
  lemma HttpPrefixExamples()
    ensures HasHttpPrefix("http get") && HasHttpPrefix("HTTPS x")
    ensures !HasHttpPrefix("GET widget") && !HasHttpPrefix("HTT")
  {
    assert "http get"[..4] == "http";
    assert "HTTPS x"[..4] == "HTTP";
    assert "GET widget"[0] == 'G';
  }

  /**
   * With tracing disabled, whatever the name and options, the span handed
   * back does not record and no real span is started.
   */
  method DisabledSpanNeverRecords(name: string, options: InstrumenterSpanOptions, translated: SpanOptions,
                                  env: ProcessEnv, active: Ctx, sampled: bool, ids: SpanContext)
    returns (recording: bool, startRequests: nat)
    requires env.Some? && Coerce(Lookup(env.value, AzureTracingDisabled.Name()))
    ensures !recording && startRequests == 0
  {
    var cache := new EnvironmentCache();
    var tracer := new TracerProvider();
    var wrapper, ctx := StartSpan(name, options, translated, cache, env, tracer, active, sampled, ids);
    recording := wrapper.IsRecording();
    startRequests := |tracer.started|;
  }

  /**
   * With only the HTTP-children flag on, an "HTTP GET" span records as
   * the sampler decides, but a child started under the context it hands
   * back does not record.
   */
  method HttpChildIsSuppressed(options: InstrumenterSpanOptions, translated: SpanOptions,
                               env: ProcessEnv, active: Ctx, sampled: bool, ids: SpanContext)
    returns (parentRecording: bool, childRecording: bool)
    requires env.Some? && !Coerce(Lookup(env.value, AzureTracingDisabled.Name()))
    requires Coerce(Lookup(env.value, AzureHttpTracingChildrenDisabled.Name()))
    requires options.tracingContext.None? && !active.suppressed
    ensures parentRecording == sampled && !childRecording
  {
    var cache := new EnvironmentCache();
    var tracer := new TracerProvider();
    HttpPrefixExamples();
    assert HasHttpPrefix("HTTP GET") by { assert "HTTP GET"[..4] == "HTTP"; }
    var parent, parentCtx := StartSpan("HTTP GET", options, translated, cache, env, tracer, active, sampled, ids);
    parentRecording := parent.IsRecording();
    var childOptions := options.(tracingContext := Some(parentCtx));
    var child, childCtx := StartSpan("child", childOptions, translated, cache, env, tracer, active, sampled, ids);
    childRecording := child.IsRecording();
  }
}
