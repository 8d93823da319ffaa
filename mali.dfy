/**
 * The mali (gRPC server) adapter (src/instrumentation/mali.js): `use` of the
 * application prototype is wrapped so that the first call on an application
 * installs the tracing middleware. The middleware opens one root span per
 * tracer named after the called method, logs the request metadata, calls the
 * next middleware and finishes the spans however that call ends.
 */
module Mali {
  import opened Wrappers
  import opened Tracing
  import opened Cls
  import opened Lifecycle
  import opened Server
  import Shim

  const NAME := "mali"
  const OPERATION_NAME := "grpc"
  const METHODS: seq<string> := ["use"]
  const MIDDLEWARE := Fn("middleware")

  /** A metadata object: its keys in `Object.keys` order, and its properties. */
  datatype Metadata = Metadata(keys: seq<string>, fields: map<string, Value>)

  /** The call context as the middleware reads it. */
  datatype MaliContext = MaliContext(fullName: Value, metadata: Option<Metadata>)

  /** `grpc:${ctx.fullName}` */
  function Url(fullName: Value): Value {
    Str("grpc:" + JsString(fullName))
  }

  /** `ctx.fullName || OPERATION_NAME`: never empty, so starting the root spans cannot fail. */
  function SpanName(fullName: Value): (r: string)
    ensures r != ""
    ensures fullName.Str? && fullName.s != "" ==> r == fullName.s
    ensures !Truthy(fullName) ==> r == OPERATION_NAME
  {
    if Truthy(fullName) then JsString(fullName) else OPERATION_NAME
  }

  /** The start tags the middleware asks for: server kind and the method URL. */
  function ServerTags(fullName: Value): Slot {
    map[SPAN_KIND := Str(SPAN_KIND_RPC_SERVER), HTTP_METHOD := Url(fullName)]
  }

  /** The carrier the tracers extract from: the metadata object, when there is one. */
  function Carrier(metadata: Option<Metadata>): Option<map<string, Value>> {
    if metadata.Some? then Some(metadata.value.fields) else None
  }

  /** `ctx.request.metadata[key]` */
  function Lookup(fields: map<string, Value>, key: string): Value {
    Property(Dict(fields), key)
  }

  /** `keys.forEach((key) => spans.forEach((span) => span.log({ [key]: metadata[key] })))`: key by key. */
  function MetadataCalls(spans: seq<SpanId>, keys: seq<string>, fields: map<string, Value>): seq<Call> {
    if keys == [] then []
    else
      var n := |keys| - 1;
      MetadataCalls(spans, keys[..n], fields) + OpCalls(spans, LogOp(map[keys[n] := Lookup(fields, keys[n])]))
  }

  /** Every span of the call gets, for every metadata key, one log of that key and its value. */
  lemma {:induction false} MetadataLogged(spans: seq<SpanId>, keys: seq<string>, fields: map<string, Value>, s: SpanId, key: string)
    ensures Log(s, map[key := Lookup(fields, key)]) in MetadataCalls(spans, keys, fields) <==> s in spans && key in keys
    ensures Finish(s) !in MetadataCalls(spans, keys, fields)
  {
    if keys != [] {
      var n := |keys| - 1;
      MetadataLogged(spans, keys[..n], fields, s, key);
      SpanCallsIn(spans, LogOp(map[keys[n] := Lookup(fields, keys[n])]), s);
      if map[key := Lookup(fields, key)] == map[keys[n] := Lookup(fields, keys[n])] {
        assert key in map[keys[n] := Lookup(fields, keys[n])];
      }
      assert keys == keys[..n] + [keys[n]];
    }
  }

  method RecordMetadata(spans: seq<SpanId>, metadata: Metadata, rec: Recorder)
    modifies rec
    ensures rec.nextSpan == old(rec.nextSpan)
    ensures rec.calls == old(rec.calls) + MetadataCalls(spans, metadata.keys, metadata.fields)
  {
    var keys := metadata.keys;
    var i := 0;
    while i < |keys|
      invariant 0 <= i <= |keys|
      invariant rec.nextSpan == old(rec.nextSpan)
      invariant rec.calls == old(rec.calls) + MetadataCalls(spans, keys[..i], metadata.fields)
    {
      assert keys[..i + 1][..i] == keys[..i];
      rec.ForEach(spans, LogOp(map[keys[i] := Lookup(metadata.fields, keys[i])]));
      i := i + 1;
    }
    assert keys[..i] == keys;
  }

  /** `if (ctx.request.metadata) { ... }` */
  function MetadataLogs(spans: seq<SpanId>, metadata: Option<Metadata>): seq<Call> {
    if metadata.Some? then MetadataCalls(spans, metadata.value.keys, metadata.value.fields) else []
  }

  method RecordMetadataLogs(spans: seq<SpanId>, metadata: Option<Metadata>, rec: Recorder)
    modifies rec
    ensures rec.nextSpan == old(rec.nextSpan)
    ensures rec.calls == old(rec.calls) + MetadataLogs(spans, metadata)
  {
    if metadata.Some? {
      RecordMetadata(spans, metadata.value, rec);
    }
  }

  method LogAndCallNext(spans: seq<SpanId>, metadata: Option<Metadata>, rec: Recorder)
    modifies rec
    ensures rec.nextSpan == old(rec.nextSpan)
    ensures rec.calls == old(rec.calls) + (MetadataLogs(spans, metadata) + [Invoke(NEXT, [])])
  {
    RecordMetadataLogs(spans, metadata, rec);
    rec.Invoke(NEXT, []);
  }

  /** The catch block: for each span in turn, the error tag and then the error log. */
  function ThrowCalls(spans: seq<SpanId>, err: Value): seq<Call> {
    if spans == [] then []
    else
      var n := |spans| - 1;
      ThrowCalls(spans[..n], err) + ThrowPair(spans[n], err)
  }

  /** When the next middleware throws, every span, and no other, is tagged as an error and logs the error; none is finished. */
  lemma {:induction false} ThrowTags(spans: seq<SpanId>, err: Value, s: SpanId)
    ensures SetTag(s, ERROR, Bool(true)) in ThrowCalls(spans, err) <==> s in spans
    ensures Log(s, map["error" := err]) in ThrowCalls(spans, err) <==> s in spans
    ensures multiset(ThrowCalls(spans, err))[Finish(s)] == 0
  {
    if spans != [] {
      var n := |spans| - 1;
      ThrowTags(spans[..n], err, s);
      ThrowCallsLast(spans, err);
      ThrowPairStep(ThrowCalls(spans[..n], err), spans[n], err, s);
      assert s in spans <==> s in spans[..n] || s == spans[n] by {
        assert spans == spans[..n] + [spans[n]];
      }
    }
  }

  lemma ThrowCallsLast(spans: seq<SpanId>, err: Value)
    requires spans != []
    ensures var n := |spans| - 1;
      ThrowCalls(spans, err) == ThrowCalls(spans[..n], err) + ThrowPair(spans[n], err)
  {
  }

  /** The catch block's two calls for one span. */
  function ThrowPair(x: SpanId, err: Value): seq<Call> {
    [SetTag(x, ERROR, Bool(true)), Log(x, map["error" := err])]
  }

  lemma ThrowPairStep(calls: seq<Call>, x: SpanId, err: Value, s: SpanId)
    ensures SetTag(s, ERROR, Bool(true)) in calls + ThrowPair(x, err) <==> SetTag(s, ERROR, Bool(true)) in calls || s == x
    ensures Log(s, map["error" := err]) in calls + ThrowPair(x, err) <==> Log(s, map["error" := err]) in calls || s == x
    ensures multiset(calls + ThrowPair(x, err))[Finish(s)] == multiset(calls)[Finish(s)]
  {
  }

  method RecordThrow(spans: seq<SpanId>, err: Value, rec: Recorder)
    modifies rec
    ensures rec.nextSpan == old(rec.nextSpan)
    ensures rec.calls == old(rec.calls) + ThrowCalls(spans, err)
  {
    var i := 0;
    while i < |spans|
      invariant 0 <= i <= |spans|
      invariant rec.nextSpan == old(rec.nextSpan)
      invariant rec.calls == old(rec.calls) + ThrowCalls(spans[..i], err)
    {
      assert spans[..i + 1][..i] == spans[..i];
      rec.Do(TagOp(ERROR, Bool(true)), spans[i]);
      rec.Do(LogOp(map["error" := err]), spans[i]);
      i := i + 1;
    }
    assert spans[..i] == spans;
  }

  /** The calls after `next()`: the catch block when it threw, then the finally block. */
  function ExitCalls(spans: seq<SpanId>, downstream: Completion): seq<Call> {
    (if downstream.Abrupt? then ThrowCalls(spans, downstream.error) else []) + OpCalls(spans, FinishOp)
  }

  method RecordExit(spans: seq<SpanId>, downstream: Completion, rec: Recorder)
    modifies rec
    ensures rec.nextSpan == old(rec.nextSpan)
    ensures rec.calls == old(rec.calls) + ExitCalls(spans, downstream)
  {
    if downstream.Abrupt? {
      RecordThrow(spans, downstream.error, rec);
    }
    rec.ForEach(spans, FinishOp);
  }

  /**
   * However `next()` ends, each span is finished exactly once; it is tagged as
   * an error exactly when `next()` threw.
   */
  lemma ExitFinishesEach(spans: seq<SpanId>, downstream: Completion, s: SpanId)
    requires Distinct(spans)
    ensures multiset(ExitCalls(spans, downstream))[Finish(s)] == if s in spans then 1 else 0
    ensures SetTag(s, ERROR, Bool(true)) in ExitCalls(spans, downstream) <==> s in spans && downstream.Abrupt?
  {
    FinishEachOnce(spans, s);
    SpanCallsIn(spans, FinishOp, s);
    if downstream.Abrupt? {
      ThrowTags(spans, downstream.error, s);
      assert multiset(ExitCalls(spans, downstream))
          == multiset(ThrowCalls(spans, downstream.error)) + multiset(OpCalls(spans, FinishOp));
    }
  }

  /** `applicationActionWrapped`: installs the middleware. */
  method ApplicationActionWrapped(app: Application, name: string, args: seq<Value>, returnedByOriginal: Value, rec: Recorder)
    returns (returned: Value)
    modifies app, rec
    ensures returned == returnedByOriginal
    ensures app.patched == (old(app.patched) || !old(app.router)) && app.router == old(app.router)
    ensures rec.nextSpan == old(rec.nextSpan)
    ensures rec.calls == old(rec.calls) + ActionCalls(old(app.patched), old(app.router), MIDDLEWARE, name, args)
  {
    returned := app.ActionWrapped(MIDDLEWARE, name, args, returnedByOriginal, rec);
  }

  /**
   * As written: `cls.startRootSpan(tracers[key], SPAN_NAME, { childOf, tags })`,
   * the options bag taking the place of the parent.
   */
  method StartAsWritten(store: ContextStore, tracers: seq<Tracer>, ctx: MaliContext, rec: Recorder)
    returns (spans: seq<SpanId>)
    modifies store, rec
    ensures spans == Consecutive(old(rec.nextSpan), |tracers|)
    ensures rec.calls == old(rec.calls)
      + RootStarts(tracers, SpanName(ctx.fullName), Bags(Extracted(tracers, Carrier(ctx.metadata)), ServerTags(ctx.fullName)), map[], old(rec.nextSpan))
  {
    spans := StartRootSpans(store, tracers, SpanName(ctx.fullName), Bags(Extracted(tracers, Carrier(ctx.metadata)), ServerTags(ctx.fullName)), map[], rec);
  }

  /** The calls up to `next()`: the root spans with their tags, the metadata logs, the call itself. */
  function StartCalls(tracers: seq<Tracer>, ctx: MaliContext, base: SpanId): seq<Call> {
    RootStarts(tracers, SpanName(ctx.fullName), Extracted(tracers, Carrier(ctx.metadata)), ServerTags(ctx.fullName), base)
    + MetadataLogs(Consecutive(base, |tracers|), ctx.metadata) + [Invoke(NEXT, [])]
  }

  /**
   * The start of the middleware as intended: one root span per tracer, child of
   * the parent extracted from the metadata and carrying the server tags; the
   * metadata logs; then the call to `next`.
   */
  method StartCall(store: ContextStore, tracers: seq<Tracer>, ctx: MaliContext, rec: Recorder)
    returns (spans: seq<SpanId>)
    modifies store, rec
    ensures spans == Consecutive(old(rec.nextSpan), |tracers|)
    ensures rec.nextSpan == old(rec.nextSpan) + |tracers|
    ensures rec.calls == old(rec.calls) + StartCalls(tracers, ctx, old(rec.nextSpan))
    ensures store.context == RootsAssigned(old(store.context), Namespaces(tracers), old(rec.nextSpan))
    ensures old(store.Valid()) ==> store.Valid()
  {
    ghost var journal, base := rec.calls, rec.nextSpan;
    spans := OpenSpans(store, tracers, ctx, rec);
    ghost var started := RootStarts(tracers, SpanName(ctx.fullName), Extracted(tracers, Carrier(ctx.metadata)), ServerTags(ctx.fullName), base);
    LogAndCallNext(spans, ctx.metadata, rec);
    Regroup(journal, started, MetadataLogs(spans, ctx.metadata), [Invoke(NEXT, [])]);
  }

  /** The root spans of the call as intended, one per tracer, with the extracted parents and the server tags. */
  method OpenSpans(store: ContextStore, tracers: seq<Tracer>, ctx: MaliContext, rec: Recorder)
    returns (spans: seq<SpanId>)
    modifies store, rec
    ensures spans == Consecutive(old(rec.nextSpan), |tracers|)
    ensures rec.nextSpan == old(rec.nextSpan) + |tracers|
    ensures rec.calls == old(rec.calls)
      + RootStarts(tracers, SpanName(ctx.fullName), Extracted(tracers, Carrier(ctx.metadata)), ServerTags(ctx.fullName), old(rec.nextSpan))
    ensures store.context == RootsAssigned(old(store.context), Namespaces(tracers), old(rec.nextSpan))
    ensures old(store.Valid()) ==> store.Valid()
  {
    spans := StartRootSpans(store, tracers, SpanName(ctx.fullName), Extracted(tracers, Carrier(ctx.metadata)), ServerTags(ctx.fullName), rec);
  }

  /**
   * `middleware(ctx, next)`: `downstream` is how `next()` ends. What it
   * returned is returned, what it threw is thrown again, and the spans are
   * finished either way.
   */
  method Middleware(store: ContextStore, tracers: seq<Tracer>, ctx: MaliContext, downstream: Completion, rec: Recorder)
    returns (spans: seq<SpanId>, result: Completion)
    modifies store, rec
    ensures spans == Consecutive(old(rec.nextSpan), |tracers|)
    ensures rec.nextSpan == old(rec.nextSpan) + |tracers|
    ensures result == downstream
    ensures rec.calls == old(rec.calls) + StartCalls(tracers, ctx, old(rec.nextSpan)) + ExitCalls(spans, downstream)
    ensures store.context == RootsAssigned(old(store.context), Namespaces(tracers), old(rec.nextSpan))
    ensures old(store.Valid()) ==> store.Valid()
  {
    spans := StartCall(store, tracers, ctx, rec);
    RecordExit(spans, downstream, rec);
    result := downstream;
  }

  /** `shimmer.wrap(mali.prototype, 'use', ...)`. */
  method Patch(proto: Shim.Target)
    modifies proto
    ensures proto.slots == Shim.WrapSlots(old(proto.slots), METHODS, NAME)
  {
    proto.WrapEach(METHODS, NAME);
  }

  /** `shimmer.unwrap(mali.prototype, 'use')`. */
  method Unpatch(proto: Shim.Target)
    modifies proto
    ensures proto.slots == Shim.UnwrapSlots(old(proto.slots), METHODS)
  {
    proto.UnwrapEach(METHODS);
  }
}
