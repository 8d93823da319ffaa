/**
 * The express error adapter (src/instrumentation/expressError.js): `use` of
 * the express Router is wrapped so that, after each registration, only the
 * last layer of the router's stack has its `handle_error` wrapped. The wrapped
 * handler marks every tracer's root span as failed and records the error on a
 * child span of its own before handing the error to the original handler.
 */
module ExpressError {
  import opened Wrappers
  import opened Tracing
  import opened Cls
  import opened Lifecycle
  import Shim

  const NAME := "expressError"
  const OPERATION_NAME := "express_error_handler"
  const USE := "use"
  const HANDLE_ERROR := "handle_error"
  /** What `rootSpan.setTag(...)` throws when a tracer has no root span. */
  const NO_ROOT_SPAN := "Cannot read property 'setTag' of undefined"

  /* ------------------------------------------------------------ error handler */

  /** How many of the root spans, from the first, are spans: the tagging loop stops at the first that is not. */
  function LeadingSpans(roots: seq<Value>): (n: nat)
    ensures n <= |roots|
    ensures forall i :: 0 <= i < n ==> roots[i].Span?
    ensures n < |roots| ==> !roots[n].Span?
  {
    if roots == [] || !roots[0].Span? then 0 else 1 + LeadingSpans(roots[1..])
  }

  /** The ids of a list of span values. */
  function Ids(roots: seq<Value>): (r: seq<SpanId>)
    requires forall i :: 0 <= i < |roots| ==> roots[i].Span?
    ensures |r| == |roots|
  {
    seq(|roots|, i requires 0 <= i < |roots| && roots[i].Span? => roots[i].id)
  }

  /** `rootSpans.forEach((rootSpan) => rootSpan.setTag(ERROR, true))`, up to the first root that is not a span. */
  function RootTagCalls(roots: seq<Value>): seq<Call> {
    OpCalls(Ids(roots[..LeadingSpans(roots)]), TagOp(ERROR, Bool(true)))
  }

  /** Every root span is tagged as an error when every tracer has one. */
  lemma RootsTagged(roots: seq<Value>, i: nat)
    requires LeadingSpans(roots) == |roots| && i < |roots|
    ensures SetTag(roots[i].id, ERROR, Bool(true)) in RootTagCalls(roots)
  {
    assert roots[..|roots|] == roots;
    OpCallsAt(Ids(roots), TagOp(ERROR, Bool(true)), i);
  }

  /** The tagging loop over the root spans; false when it hit one that is not a span. */
  method TagRoots(roots: seq<Value>, rec: Recorder) returns (ok: bool)
    modifies rec
    ensures ok <==> LeadingSpans(roots) == |roots|
    ensures rec.nextSpan == old(rec.nextSpan)
    ensures rec.calls == old(rec.calls) + RootTagCalls(roots)
  {
    var n := LeadingSpans(roots);
    var i := 0;
    while i < |roots| && roots[i].Span?
      invariant 0 <= i <= n
      invariant rec.nextSpan == old(rec.nextSpan)
      invariant rec.calls == old(rec.calls) + OpCalls(Ids(roots[..i]), TagOp(ERROR, Bool(true)))
    {
      assert Ids(roots[..i + 1]) == Ids(roots[..i]) + [roots[i].id];
      rec.Do(TagOp(ERROR, Bool(true)), roots[i].id);
      i := i + 1;
    }
    ok := i == |roots|;
  }

  /** The calls on the handler's own spans: the error log, the error tag, the finish. */
  function SpanErrorCalls(spans: seq<SpanId>, err: Value): seq<Call> {
    OpCalls(spans, LogOp(ErrorFields(err))) + OpCalls(spans, TagOp(ERROR, Bool(true))) + OpCalls(spans, FinishOp)
  }

  /** Each of the handler's spans logs the error, is tagged as an error and is finished exactly once. */
  lemma ErrorSpansFinishedOnce(spans: seq<SpanId>, err: Value, s: SpanId)
    requires Distinct(spans)
    ensures multiset(SpanErrorCalls(spans, err))[Finish(s)] == if s in spans then 1 else 0
    ensures Log(s, ErrorFields(err)) in SpanErrorCalls(spans, err) <==> s in spans
    ensures SetTag(s, ERROR, Bool(true)) in SpanErrorCalls(spans, err) <==> s in spans
  {
    var logs, tags := OpCalls(spans, LogOp(ErrorFields(err))), OpCalls(spans, TagOp(ERROR, Bool(true)));
    FinishEachOnce(spans, s);
    NoFinishIn(spans, LogOp(ErrorFields(err)), s);
    NoFinishIn(spans, TagOp(ERROR, Bool(true)), s);
    SpanCallsIn(spans, LogOp(ErrorFields(err)), s);
    SpanCallsIn(spans, TagOp(ERROR, Bool(true)), s);
    SpanCallsIn(spans, FinishOp, s);
    assert multiset(SpanErrorCalls(spans, err)) == multiset(logs) + multiset(tags) + multiset(OpCalls(spans, FinishOp));
  }

  method RecordSpanErrors(spans: seq<SpanId>, err: Value, rec: Recorder)
    modifies rec
    ensures rec.nextSpan == old(rec.nextSpan)
    ensures rec.calls == old(rec.calls) + SpanErrorCalls(spans, err)
  {
    rec.ForEach(spans, LogOp(ErrorFields(err)));
    rec.ForEach(spans, TagOp(ERROR, Bool(true)));
    rec.ForEach(spans, FinishOp);
  }

  /** The calls from the handler's own spans on: start, error records, and the original handler. */
  function HandledCalls(context: Context, tracers: seq<Tracer>, err: Value, req: Value, res: Value, next: Value, base: SpanId): seq<Call>
    reads tracers
  {
    ChildStarts(context, tracers, OPERATION_NAME, map[], base)
    + SpanErrorCalls(Consecutive(base, |tracers|), err) + [Invoke(HANDLE_ERROR, [err, req, res, next])]
  }

  /** The part of the handler after the root spans are tagged. */
  method Handle(store: ContextStore, tracers: seq<Tracer>, err: Value, req: Value, res: Value, next: Value, rec: Recorder)
    returns (spans: seq<SpanId>)
    requires store.Valid()
    modifies rec
    ensures spans == Consecutive(old(rec.nextSpan), |tracers|)
    ensures rec.nextSpan == old(rec.nextSpan) + |tracers|
    ensures rec.calls == old(rec.calls) + HandledCalls(store.context, tracers, err, req, res, next, old(rec.nextSpan))
  {
    spans := StartChildSpans(store, tracers, OPERATION_NAME, map[], rec);
    ghost var journal := rec.calls;
    RecordSpanErrors(spans, err, rec);
    rec.Invoke(HANDLE_ERROR, [err, req, res, next]);
    assert rec.calls == journal + (SpanErrorCalls(spans, err) + [Invoke(HANDLE_ERROR, [err, req, res, next])]);
  }

  /**
   * The wrapped `handle_error(err, req, res, next)`: every tracer's root span
   * is tagged as an error; then one child span per tracer records the error
   * and is finished; then the original handler is called and what it returns
   * is returned. A tracer without a root span makes the tagging throw.
   */
  method HandleError(store: ContextStore, tracers: seq<Tracer>, err: Value, req: Value, res: Value, next: Value,
                     returnedByOriginal: Value, rec: Recorder)
    returns (result: Result<Value, string>, spans: seq<SpanId>)
    requires store.Valid()
    modifies rec
    ensures var roots := RootSpans(store.context, Namespaces(tracers));
      if LeadingSpans(roots) == |roots| then
        && result == Success(returnedByOriginal)
        && spans == Consecutive(old(rec.nextSpan), |tracers|)
        && rec.nextSpan == old(rec.nextSpan) + |tracers|
        && rec.calls == old(rec.calls) + RootTagCalls(roots) + HandledCalls(store.context, tracers, err, req, res, next, old(rec.nextSpan))
      else
        && result == Failure(NO_ROOT_SPAN) && spans == []
        && rec.nextSpan == old(rec.nextSpan)
        && rec.calls == old(rec.calls) + RootTagCalls(roots)
  {
    var roots := RootSpans(store.context, Namespaces(tracers));
    var ok := TagRoots(roots, rec);
    if !ok {
      return Failure(NO_ROOT_SPAN), [];
    }
    spans := Handle(store, tracers, err, req, res, next, rec);
    result := Success(returnedByOriginal);
  }

  /* ------------------------------------------------------------------ layers */

  /** The adapter's state: the layer it last wrapped, and the set of wrapped layers. */
  class LayerTracker {
    var lastLayer: Option<Shim.Target>
    var wrappedLayers: set<Shim.Target>

    constructor ()
      ensures lastLayer == None && wrappedLayers == {}
    {
      lastLayer := None;
      wrappedLayers := {};
    }

    /** Only the last layer is wrapped, so an error is recorded once however many middleware are registered. */
    predicate Valid()
      reads this
    {
      wrappedLayers == if lastLayer.Some? then {lastLayer.value} else {}
    }

    /** `unpatchLayer(layer)`. */
    method UnpatchLayer(layer: Shim.Target)
      modifies this, layer
      ensures layer.slots == Shim.UnwrapSlot(old(layer.slots), HANDLE_ERROR)
      ensures wrappedLayers == old(wrappedLayers) - {layer} && lastLayer == old(lastLayer)
    {
      layer.Unwrap(HANDLE_ERROR);
      wrappedLayers := wrappedLayers - {layer};
    }

    /**
     * The wrapped `Router.use(...args)`. `router` is what the original returns
     * and `stack` its layer stack afterwards. The previously wrapped layer is
     * unwrapped; the new last layer, if any, is wrapped and recorded.
     */
    method ErrorHandlerUse(args: seq<Value>, router: Value, stack: seq<Shim.Target>, rec: Recorder)
      returns (returned: Value)
      modifies this, rec, (if lastLayer.Some? then {lastLayer.value} else {}), (if stack == [] then {} else {stack[|stack| - 1]})
      ensures returned == router
      ensures rec.nextSpan == old(rec.nextSpan) && rec.calls == old(rec.calls) + [Invoke(USE, args)]
      ensures lastLayer == if stack == [] then None else Some(stack[|stack| - 1])
      ensures wrappedLayers == (old(wrappedLayers) - (if old(lastLayer).Some? then {old(lastLayer).value} else {}))
        + (if lastLayer.Some? then {lastLayer.value} else {})
      ensures old(lastLayer).Some? && old(lastLayer) != lastLayer ==>
        old(lastLayer).value.slots == Shim.UnwrapSlot(old(lastLayer.value.slots), HANDLE_ERROR)
      ensures lastLayer.Some? ==>
        lastLayer.value.slots == Shim.WrapSlot(
          if old(lastLayer) == lastLayer then Shim.UnwrapSlot(old(lastLayer.value.slots), HANDLE_ERROR)
          else old(stack[|stack| - 1].slots),
          HANDLE_ERROR, NAME)
      ensures old(Valid()) ==> Valid()
    {
      rec.Invoke(USE, args);
      if lastLayer.Some? {
        UnpatchLayer(lastLayer.value);
      }
      if stack == [] {
        lastLayer := None;
        return router;
      }
      var layer := stack[|stack| - 1];
      lastLayer := Some(layer);
      layer.Wrap(HANDLE_ERROR, NAME);
      wrappedLayers := wrappedLayers + {layer};
      returned := router;
    }

    /** `unpatch(express)`: `Router.use` and every recorded layer are unwrapped. */
    method Unpatch(routerProto: Shim.Target)
      requires routerProto !in wrappedLayers
      modifies this, routerProto, wrappedLayers
      ensures routerProto.slots == Shim.UnwrapSlot(old(routerProto.slots), USE)
      ensures forall layer :: layer in old(wrappedLayers) ==> layer.slots == Shim.UnwrapSlot(old(layer.slots), HANDLE_ERROR)
      ensures wrappedLayers == {} && lastLayer == old(lastLayer)
    {
      routerProto.Unwrap(USE);
      ghost var layers := wrappedLayers;
      while wrappedLayers != {}
        invariant wrappedLayers <= layers && lastLayer == old(lastLayer)
        invariant routerProto.slots == Shim.UnwrapSlot(old(routerProto.slots), USE)
        invariant forall layer :: layer in layers ==>
          layer.slots == if layer in wrappedLayers then old(layer.slots) else Shim.UnwrapSlot(old(layer.slots), HANDLE_ERROR)
        decreases wrappedLayers
      {
        var layer :| layer in wrappedLayers;
        UnpatchLayer(layer);
      }
    }
  }

  /** `shimmer.wrap(express.Router, 'use', ...)`. */
  method Patch(routerProto: Shim.Target)
    modifies routerProto
    ensures routerProto.slots == Shim.WrapSlot(old(routerProto.slots), USE, NAME)
  {
    routerProto.Wrap(USE, NAME);
  }
}
