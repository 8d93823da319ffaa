/**
 * The koa adapter (src/instrumentation/koa.js): `use` of the application
 * prototype is wrapped so that the first call on an application installs the
 * tracing middleware (the koa 2 one when koa is a class, the koa 1 one
 * otherwise). The middleware opens one root span per tracer, lets the rest of
 * the chain run, then tags and finishes the spans and sends their contexts
 * back in the response headers.
 */
module Koa {
  import opened Wrappers
  import opened Tracing
  import opened Cls
  import opened Lifecycle
  import opened Server
  import Shim

  const NAME := "koa"
  const METHODS: seq<string> := ["use"]
  const SET := "set"
  const KOA2_MIDDLEWARE := Fn("koa2Middleware")
  const KOA1_MIDDLEWARE := Fn("koa1Middleware")

  /** The middleware the wrapper installs: `isClass(koa)` tells koa 2 from koa 1. */
  function MiddlewareFor(isClass: bool): Value {
    if isClass then KOA2_MIDDLEWARE else KOA1_MIDDLEWARE
  }

  /** The koa context as the middleware reads it before calling `next`. */
  datatype KoaContext = KoaContext(
    protocol: Value, host: Value, url: Value,
    headers: Option<map<string, Value>>, verb: Value, remoteAddress: Value)

  /** `${ctx.protocol}://${ctx.host}${ctx.url}` */
  function Url(ctx: KoaContext): Value {
    Str(JsString(ctx.protocol) + "://" + JsString(ctx.host) + JsString(ctx.url))
  }

  /** The start tags the middleware asks for: server kind, URL and method. */
  function ServerTags(ctx: KoaContext): Slot {
    map[SPAN_KIND := Str(SPAN_KIND_RPC_SERVER), HTTP_URL := Url(ctx), HTTP_METHOD := ctx.verb]
  }

  /** The header object filled by `tracer.inject(spans[key], ...)` for every tracer. */
  function ResponseHeaders(tracers: seq<Tracer>, spans: seq<SpanId>): map<string, Value> {
    InjectedAll(map[], tracers, SpansByTracer(spans, |tracers|))
  }

  /** The calls up to `next()`: the root spans with their tags, the peer address, the call itself. */
  function StartCalls(tracers: seq<Tracer>, ctx: KoaContext, base: SpanId): seq<Call> {
    RootStarts(tracers, OPERATION_NAME, Extracted(tracers, ctx.headers), ServerTags(ctx), base)
    + PeerCalls(Consecutive(base, |tracers|), ctx.remoteAddress) + [Invoke(NEXT, [])]
  }

  /** The calls once `next()` has resolved: the end tags and finish, the injections, then `ctx.set(headers)`. */
  function AfterCalls(tracers: seq<Tracer>, spans: seq<SpanId>, path: Value, status: int): seq<Call> {
    EndCalls(spans, Some(path), status)
    + InjectCalls(tracers, SpansByTracer(spans, |tracers|))
    + [Invoke(SET, [Dict(ResponseHeaders(tracers, spans))])]
  }

  /** The injections touch no span. */
  lemma InjectsOnly(tracers: seq<Tracer>, values: seq<Value>, c: Call)
    requires |values| == |tracers|
    ensures c in InjectCalls(tracers, values) ==> c.Inject?
  {
  }

  /**
   * After the rest of the chain, each span of the request is finished exactly
   * once, tagged as an error exactly when the status is 400 or more, and
   * tagged with the request path.
   */
  lemma AfterFinishesEach(tracers: seq<Tracer>, spans: seq<SpanId>, path: Value, status: int, s: SpanId)
    requires Distinct(spans)
    ensures multiset(AfterCalls(tracers, spans, path, status))[Finish(s)] == if s in spans then 1 else 0
    ensures SetTag(s, ERROR, Bool(true)) in AfterCalls(tracers, spans, path, status) <==> s in spans && status >= 400
    ensures SetTag(s, TAG_REQUEST_PATH, path) in AfterCalls(tracers, spans, path, status) <==> s in spans
  {
    var ends := EndCalls(spans, Some(path), status);
    var injects := InjectCalls(tracers, SpansByTracer(spans, |tracers|));
    var setCall := [Invoke(SET, [Dict(ResponseHeaders(tracers, spans))])];
    var rest := injects + setCall;
    EndCallsFinish(spans, Some(path), status, s);
    EndTags(spans, Some(path), status, s, path);
    TailTouchesNoSpan(tracers, spans, path, s);
    Assoc(ends, injects, setCall);
    assert multiset(ends + rest) == multiset(ends) + multiset(rest);
  }

  /** The injections and `ctx.set(headers)` after the end calls neither finish nor tag a span. */
  lemma TailTouchesNoSpan(tracers: seq<Tracer>, spans: seq<SpanId>, path: Value, s: SpanId)
    ensures var rest := InjectCalls(tracers, SpansByTracer(spans, |tracers|)) + [Invoke(SET, [Dict(ResponseHeaders(tracers, spans))])];
      && multiset(rest)[Finish(s)] == 0
      && SetTag(s, ERROR, Bool(true)) !in rest
      && SetTag(s, TAG_REQUEST_PATH, path) !in rest
  {
    InjectsOnly(tracers, SpansByTracer(spans, |tracers|), Finish(s));
    InjectsOnly(tracers, SpansByTracer(spans, |tracers|), SetTag(s, ERROR, Bool(true)));
    InjectsOnly(tracers, SpansByTracer(spans, |tracers|), SetTag(s, TAG_REQUEST_PATH, path));
  }

  /**
   * With distinct tracer headers, the headers set on the response carry, under
   * each tracer's header, that tracer's span, and nothing else.
   */
  lemma ResponseHeadersCarrySpans(tracers: seq<Tracer>, spans: seq<SpanId>, i: nat)
    requires |spans| == |tracers| && i < |tracers|
    requires forall j, k :: 0 <= j < k < |tracers| ==> tracers[j].header != tracers[k].header
    ensures tracers[i].header in ResponseHeaders(tracers, spans)
    ensures ResponseHeaders(tracers, spans)[tracers[i].header] == Span(spans[i])
  {
    InjectedAllHeaders(map[], tracers, SpansByTracer(spans, |tracers|), i);
  }

  /** A header no tracer writes is absent from the headers set on the response. */
  lemma ResponseHeadersOnlyTracers(tracers: seq<Tracer>, spans: seq<SpanId>, key: string)
    requires forall i :: 0 <= i < |tracers| ==> tracers[i].header != key
    ensures key !in ResponseHeaders(tracers, spans)
  {
    InjectedAllKeeps(map[], tracers, SpansByTracer(spans, |tracers|), key);
  }

  /** `applicationActionWrapped`: installs the koa 2 or koa 1 middleware. */
  method ApplicationActionWrapped(app: Application, isClass: bool, name: string, args: seq<Value>, returnedByOriginal: Value, rec: Recorder)
    returns (returned: Value)
    modifies app, rec
    ensures returned == returnedByOriginal
    ensures app.patched == (old(app.patched) || !old(app.router)) && app.router == old(app.router)
    ensures rec.nextSpan == old(rec.nextSpan)
    ensures rec.calls == old(rec.calls) + ActionCalls(old(app.patched), old(app.router), MiddlewareFor(isClass), name, args)
  {
    returned := app.ActionWrapped(MiddlewareFor(isClass), name, args, returnedByOriginal, rec);
  }

  /**
   * As written: `cls.startRootSpan(tracers[key], OPERATION_NAME, { childOf, tags })`,
   * the options bag taking the place of the parent.
   */
  method StartAsWritten(store: ContextStore, tracers: seq<Tracer>, ctx: KoaContext, rec: Recorder)
    returns (spans: seq<SpanId>)
    modifies store, rec
    ensures spans == Consecutive(old(rec.nextSpan), |tracers|)
    ensures rec.calls == old(rec.calls)
      + RootStarts(tracers, OPERATION_NAME, Bags(Extracted(tracers, ctx.headers), ServerTags(ctx)), map[], old(rec.nextSpan))
  {
    spans := StartRootSpans(store, tracers, OPERATION_NAME, Bags(Extracted(tracers, ctx.headers), ServerTags(ctx)), map[], rec);
  }

  /**
   * The start of the middleware as intended: one root span per tracer, child of
   * the extracted parent and carrying the server tags; then the peer address
   * and the call to `next`.
   */
  method StartRequest(store: ContextStore, tracers: seq<Tracer>, ctx: KoaContext, rec: Recorder)
    returns (spans: seq<SpanId>)
    modifies store, rec
    ensures spans == Consecutive(old(rec.nextSpan), |tracers|)
    ensures rec.nextSpan == old(rec.nextSpan) + |tracers|
    ensures rec.calls == old(rec.calls) + StartCalls(tracers, ctx, old(rec.nextSpan))
    ensures store.context == RootsAssigned(old(store.context), Namespaces(tracers), old(rec.nextSpan))
    ensures old(store.Valid()) ==> store.Valid()
  {
    spans := StartRootSpans(store, tracers, OPERATION_NAME, Extracted(tracers, ctx.headers), ServerTags(ctx), rec);
    RecordPeer(spans, ctx.remoteAddress, rec);
    rec.Invoke(NEXT, []);
  }

  /** The part after `await next()`. */
  method AfterNext(tracers: seq<Tracer>, spans: seq<SpanId>, path: Value, status: int, rec: Recorder)
    modifies rec
    ensures rec.nextSpan == old(rec.nextSpan)
    ensures rec.calls == old(rec.calls) + AfterCalls(tracers, spans, path, status)
  {
    RecordEnd(spans, Some(path), status, rec);
    var headers := InjectAll(tracers, SpansByTracer(spans, |tracers|), map[], rec);
    rec.Invoke(SET, [Dict(headers)]);
  }

  /**
   * `koa2Middleware(ctx, next)` and `koa1Middleware(next)`, which do the same.
   * `downstream` is how the rest of the chain ended; `path` and `status` are
   * `ctx.path` and `ctx.status` as it left them. When the rest of the chain
   * throws, the error propagates and the spans stay open.
   */
  method Middleware(store: ContextStore, tracers: seq<Tracer>, ctx: KoaContext, downstream: Completion, path: Value, status: int, rec: Recorder)
    returns (spans: seq<SpanId>, result: Completion)
    modifies store, rec
    ensures spans == Consecutive(old(rec.nextSpan), |tracers|)
    ensures rec.nextSpan == old(rec.nextSpan) + |tracers|
    ensures result == if downstream.Normal? then Normal(Undefined) else downstream
    ensures rec.calls == old(rec.calls) + StartCalls(tracers, ctx, old(rec.nextSpan))
      + (if downstream.Normal? then AfterCalls(tracers, spans, path, status) else [])
    ensures store.context == RootsAssigned(old(store.context), Namespaces(tracers), old(rec.nextSpan))
    ensures old(store.Valid()) ==> store.Valid()
  {
    spans := StartRequest(store, tracers, ctx, rec);
    result := Settle(tracers, spans, downstream, path, status, rec);
  }

  /** After `await next()`: the end of the request when it resolved; when it threw, nothing is recorded and the error propagates. */
  method Settle(tracers: seq<Tracer>, spans: seq<SpanId>, downstream: Completion, path: Value, status: int, rec: Recorder)
    returns (result: Completion)
    modifies rec
    ensures rec.nextSpan == old(rec.nextSpan)
    ensures result == if downstream.Normal? then Normal(Undefined) else downstream
    ensures rec.calls == old(rec.calls) + (if downstream.Normal? then AfterCalls(tracers, spans, path, status) else [])
  {
    if downstream.Abrupt? {
      return downstream;
    }
    AfterNext(tracers, spans, path, status, rec);
    result := Normal(Undefined);
  }

  /** `shimmer.wrap(koa.prototype, 'use', ...)`. */
  method Patch(proto: Shim.Target)
    modifies proto
    ensures proto.slots == Shim.WrapSlots(old(proto.slots), METHODS, NAME)
  {
    proto.WrapEach(METHODS, NAME);
  }

  /** `shimmer.unwrap(koa.prototype, 'use')`. */
  method Unpatch(proto: Shim.Target)
    modifies proto
    ensures proto.slots == Shim.UnwrapSlots(old(proto.slots), METHODS)
  {
    proto.UnwrapEach(METHODS);
  }
}
