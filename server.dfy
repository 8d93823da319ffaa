/**
 * What the HTTP server adapters (src/instrumentation/express.js and
 * src/instrumentation/restify.js) share, and what koa and mali share with them:
 * the once-per-application installation of the tracing middleware, the root
 * spans a request opens with their start tags, and the wrapper put in front of
 * `res.end` that tags and finishes those spans when the response ends.
 */
module Server {
  import opened Wrappers
  import opened Tracing
  import opened Cls
  import opened Lifecycle

  const OPERATION_NAME := "http_server"
  const TAG_REQUEST_PATH := "request_path"
  const PEER_REMOTE_ADDRESS := "peerRemoteAddress"
  const END := "end"
  const NEXT := "next"
  const USE := "use"

  /* ---------------------------------------------------------------- install */

  /** Whether a wrapped application method installs the middleware: not yet patched and no router yet. */
  predicate Installing(patched: bool, router: bool) {
    !patched && !router
  }

  /** The calls of `applicationActionWrapped(...args)` for an application in the given state. */
  function ActionCalls(patched: bool, router: bool, middleware: Value, name: string, args: seq<Value>): (r: seq<Call>)
    ensures |r| > 0 && r[|r| - 1] == Invoke(name, args)
    ensures |r| == 2 <==> Installing(patched, router)
    ensures |r| == 2 ==> r[0] == Invoke(USE, [middleware])
  {
    (if Installing(patched, router) then [Invoke(USE, [middleware])] else []) + [Invoke(name, args)]
  }

  /** One call of a wrapped application method: whether the application already had a router then. */
  datatype Action = Action(router: bool, name: string, args: seq<Value>)

  /** How many of a series of wrapped calls on one application install the middleware. */
  function Installs(patched: bool, actions: seq<Action>): nat
    decreases |actions|
  {
    if actions == [] then 0
    else
      (if Installing(patched, actions[0].router) then 1 else 0)
      + Installs(patched || !actions[0].router, actions[1..])
  }

  /**
   * The middleware is installed at most once per application, and on an
   * unpatched application it is installed exactly when one of the calls finds
   * no router yet.
   */
  lemma {:induction false} InstalledAtMostOnce(patched: bool, actions: seq<Action>)
    decreases |actions|
    ensures Installs(patched, actions) <= if patched then 0 else 1
    ensures !patched ==> (Installs(patched, actions) == 1 <==> exists i :: 0 <= i < |actions| && !actions[i].router)
  {
    if actions != [] {
      InstalledAtMostOnce(patched || !actions[0].router, actions[1..]);
      if !patched && actions[0].router {
        assert forall i :: 1 <= i < |actions| ==> actions[1..][i - 1] == actions[i];
        assert forall i :: 0 <= i < |actions[1..]| ==> actions[1..][i] == actions[i + 1];
      }
    }
  }

  /** An application object (express, koa or mali) as the wrapper sees it. */
  class Application {
    /** `this._jaeger_trace_patched` */
    var patched: bool
    /** Whether `this._router` is set. */
    var router: bool

    constructor (router: bool)
      ensures !patched && this.router == router
    {
      patched := false;
      this.router := router;
    }

    /**
     * `applicationActionWrapped(...args)` around the original method `name`:
     * the first call on an application without a router installs the
     * middleware through `this.use`; every call then goes to the original,
     * whose result is returned.
     */
    method ActionWrapped(middleware: Value, name: string, args: seq<Value>, returnedByOriginal: Value, rec: Recorder)
      returns (returned: Value)
      modifies this, rec
      ensures returned == returnedByOriginal
      ensures patched == (old(patched) || !old(router)) && router == old(router)
      ensures rec.nextSpan == old(rec.nextSpan)
      ensures rec.calls == old(rec.calls) + ActionCalls(old(patched), old(router), middleware, name, args)
    {
      if !patched && !router {
        patched := true;
        rec.Invoke(USE, [middleware]);
      }
      rec.Invoke(name, args);
      returned := returnedByOriginal;
    }
  }

  /* ------------------------------------------------------------------ start */

  /** The request as the middleware reads it. */
  datatype Request = Request(headers: Option<map<string, Value>>, verb: Value, remoteAddress: Value)

  /** How a call to the next middleware ended: with a value, or by throwing. */
  datatype Completion = Normal(value: Value) | Abrupt(error: Value)

  /** The peer address log on every span, when the address is truthy. */
  function PeerCalls(spans: seq<SpanId>, remoteAddress: Value): seq<Call> {
    if Truthy(remoteAddress) then OpCalls(spans, LogOp(map[PEER_REMOTE_ADDRESS := remoteAddress])) else []
  }

  method RecordPeer(spans: seq<SpanId>, remoteAddress: Value, rec: Recorder)
    modifies rec
    ensures rec.nextSpan == old(rec.nextSpan)
    ensures rec.calls == old(rec.calls) + PeerCalls(spans, remoteAddress)
  {
    if Truthy(remoteAddress) {
      rec.ForEach(spans, LogOp(map[PEER_REMOTE_ADDRESS := remoteAddress]));
    }
  }

  /** The start tags, one loop each, then the peer address log when the address is truthy. */
  function StartCalls(spans: seq<SpanId>, url: Value, verb: Value, remoteAddress: Value): seq<Call> {
    OpCalls(spans, TagOp(HTTP_URL, url)) + OpCalls(spans, TagOp(HTTP_METHOD, verb))
    + OpCalls(spans, TagOp(SPAN_KIND_RPC_SERVER, Bool(true)))
    + PeerCalls(spans, remoteAddress)
  }

  /**
   * Each span of the request, and no other, is tagged with the URL, the method
   * and the server kind; it gets the peer address log exactly when the
   * address is truthy; nothing is finished at the start.
   */
  lemma StartTags(spans: seq<SpanId>, url: Value, verb: Value, remoteAddress: Value, s: SpanId)
    ensures SetTag(s, HTTP_URL, url) in StartCalls(spans, url, verb, remoteAddress) <==> s in spans
    ensures SetTag(s, HTTP_METHOD, verb) in StartCalls(spans, url, verb, remoteAddress) <==> s in spans
    ensures SetTag(s, SPAN_KIND_RPC_SERVER, Bool(true)) in StartCalls(spans, url, verb, remoteAddress) <==> s in spans
    ensures Log(s, map[PEER_REMOTE_ADDRESS := remoteAddress]) in StartCalls(spans, url, verb, remoteAddress)
      <==> s in spans && Truthy(remoteAddress)
    ensures Finish(s) !in StartCalls(spans, url, verb, remoteAddress)
  {
    var peer := map[PEER_REMOTE_ADDRESS := remoteAddress];
    SpanCallsIn(spans, TagOp(HTTP_URL, url), s);
    SpanCallsIn(spans, TagOp(HTTP_METHOD, verb), s);
    SpanCallsIn(spans, TagOp(SPAN_KIND_RPC_SERVER, Bool(true)), s);
    SpanCallsIn(spans, LogOp(peer), s);
  }

  method RecordStart(spans: seq<SpanId>, url: Value, verb: Value, remoteAddress: Value, rec: Recorder)
    modifies rec
    ensures rec.nextSpan == old(rec.nextSpan)
    ensures rec.calls == old(rec.calls) + StartCalls(spans, url, verb, remoteAddress)
  {
    rec.ForEach(spans, TagOp(HTTP_URL, url));
    rec.ForEach(spans, TagOp(HTTP_METHOD, verb));
    rec.ForEach(spans, TagOp(SPAN_KIND_RPC_SERVER, Bool(true)));
    RecordPeer(spans, remoteAddress, rec);
  }

  /* -------------------------------------------------------------------- end */

  /** The calls after the response has ended: request path, status code, error for a status of 400 or more, finish. */
  function EndCalls(spans: seq<SpanId>, requestPath: Option<Value>, status: int): seq<Call> {
    (if requestPath.Some? then OpCalls(spans, TagOp(TAG_REQUEST_PATH, requestPath.value)) else [])
    + OpCalls(spans, TagOp(HTTP_STATUS_CODE, Num(status)))
    + (if status >= 400 then OpCalls(spans, TagOp(ERROR, Bool(true))) else [])
    + OpCalls(spans, FinishOp)
  }

  /**
   * Each span is tagged with the status code; with the request path exactly
   * when there is one; as an error exactly when the status is 400 or more.
   */
  lemma EndTags(spans: seq<SpanId>, requestPath: Option<Value>, status: int, s: SpanId, path: Value)
    ensures SetTag(s, HTTP_STATUS_CODE, Num(status)) in EndCalls(spans, requestPath, status) <==> s in spans
    ensures SetTag(s, ERROR, Bool(true)) in EndCalls(spans, requestPath, status) <==> s in spans && status >= 400
    ensures SetTag(s, TAG_REQUEST_PATH, path) in EndCalls(spans, requestPath, status)
      <==> s in spans && requestPath == Some(path)
  {
    SpanCallsIn(spans, TagOp(HTTP_STATUS_CODE, Num(status)), s);
    SpanCallsIn(spans, TagOp(ERROR, Bool(true)), s);
    SpanCallsIn(spans, FinishOp, s);
    if requestPath.Some? {
      SpanCallsIn(spans, TagOp(TAG_REQUEST_PATH, requestPath.value), s);
    }
  }

  /** The end of a request's spans finishes each of them once. */
  lemma EndCallsFinish(spans: seq<SpanId>, requestPath: Option<Value>, status: int, s: SpanId)
    requires Distinct(spans)
    ensures multiset(EndCalls(spans, requestPath, status))[Finish(s)] == if s in spans then 1 else 0
  {
    FinishEachOnce(spans, s);
    NoFinishIn(spans, TagOp(HTTP_STATUS_CODE, Num(status)), s);
    NoFinishIn(spans, TagOp(ERROR, Bool(true)), s);
    if requestPath.Some? {
      NoFinishIn(spans, TagOp(TAG_REQUEST_PATH, requestPath.value), s);
    }
  }

  /** The end of a request's spans calls into no function of the program. */
  lemma EndCallsInvokeNothing(spans: seq<SpanId>, requestPath: Option<Value>, status: int, target: string, args: seq<Value>)
    ensures Invoke(target, args) !in EndCalls(spans, requestPath, status)
  {
    InOpCalls(spans, TagOp(HTTP_STATUS_CODE, Num(status)), Invoke(target, args));
    InOpCalls(spans, TagOp(ERROR, Bool(true)), Invoke(target, args));
    InOpCalls(spans, FinishOp, Invoke(target, args));
    if requestPath.Some? {
      InOpCalls(spans, TagOp(TAG_REQUEST_PATH, requestPath.value), Invoke(target, args));
    }
  }

  /** What `res.end` holds: the response's own method, or a tracing wrapper in front of what was there before. */
  datatype EndSlot = NativeEnd | TracedEnd(spans: seq<SpanId>, original: EndSlot)

  /** The spans of every wrapper in the chain, innermost first. */
  function Wrapped(slot: EndSlot): seq<SpanId> {
    match slot
    case NativeEnd => []
    case TracedEnd(spans, original) => Wrapped(original) + spans
  }

  /**
   * The calls of `res.end(...args)`: each wrapper puts back what it replaced
   * and calls it, so the response's own `end` runs first, then every wrapper
   * from the innermost out tags and finishes its spans.
   */
  function EndRun(slot: EndSlot, args: seq<Value>, requestPath: Option<Value>, status: int): (r: seq<Call>)
    ensures |r| > 0
  {
    match slot
    case NativeEnd => [Invoke(END, args)]
    case TracedEnd(spans, original) => EndRun(original, args, requestPath, status) + EndCalls(spans, requestPath, status)
  }

  lemma DistinctSplit(a: seq<SpanId>, b: seq<SpanId>)
    requires Distinct(a + b)
    ensures Distinct(a) && Distinct(b)
    ensures forall x :: x in a ==> x !in b
  {
    assert forall i :: 0 <= i < |a| ==> (a + b)[i] == a[i];
    assert forall j :: 0 <= j < |b| ==> (a + b)[|a| + j] == b[j];
  }

  /** Ending a response calls its own `end` exactly once, before anything else. */
  lemma {:induction false} EndCallsOriginalFirst(slot: EndSlot, args: seq<Value>, requestPath: Option<Value>, status: int)
    ensures EndRun(slot, args, requestPath, status)[0] == Invoke(END, args)
    ensures Invoke(END, args) !in EndRun(slot, args, requestPath, status)[1..]
  {
    match slot
    case NativeEnd =>
    case TracedEnd(spans, original) =>
      EndCallsOriginalFirst(original, args, requestPath, status);
      EndCallsInvokeNothing(spans, requestPath, status, END, args);
      var inner := EndRun(original, args, requestPath, status);
      assert EndRun(slot, args, requestPath, status)[1..] == inner[1..] + EndCalls(spans, requestPath, status);
  }

  /** Ending a response finishes every span of every wrapper in front of its `end` exactly once. */
  lemma {:induction false} EndFinishesEach(slot: EndSlot, args: seq<Value>, requestPath: Option<Value>, status: int, s: SpanId)
    requires Distinct(Wrapped(slot))
    ensures multiset(EndRun(slot, args, requestPath, status))[Finish(s)] == if s in Wrapped(slot) then 1 else 0
  {
    match slot
    case NativeEnd =>
    case TracedEnd(spans, original) =>
      DistinctSplit(Wrapped(original), spans);
      EndFinishesEach(original, args, requestPath, status, s);
      EndCallsFinish(spans, requestPath, status, s);
      assert multiset(EndRun(slot, args, requestPath, status))
          == multiset(EndRun(original, args, requestPath, status)) + multiset(EndCalls(spans, requestPath, status));
  }

  method RecordEnd(spans: seq<SpanId>, requestPath: Option<Value>, status: int, rec: Recorder)
    modifies rec
    ensures rec.nextSpan == old(rec.nextSpan)
    ensures rec.calls == old(rec.calls) + EndCalls(spans, requestPath, status)
  {
    if requestPath.Some? {
      rec.ForEach(spans, TagOp(TAG_REQUEST_PATH, requestPath.value));
    }
    rec.ForEach(spans, TagOp(HTTP_STATUS_CODE, Num(status)));
    if status >= 400 {
      rec.ForEach(spans, TagOp(ERROR, Bool(true)));
    }
    rec.ForEach(spans, FinishOp);
  }

  /** A server response: its `end` slot and the status code the application set. */
  class Response {
    var end: EndSlot
    var statusCode: int

    constructor (statusCode: int)
      ensures end == NativeEnd && this.statusCode == statusCode
    {
      end := NativeEnd;
      this.statusCode := statusCode;
    }

    /**
     * `res.end(...args)`. `requestPath` is the request path the wrappers read
     * once the response has ended; `nativeReturn` is what the response's own
     * `end` returns, and every wrapper returns it unchanged.
     */
    method End(args: seq<Value>, requestPath: Option<Value>, nativeReturn: Value, rec: Recorder)
      returns (returned: Value)
      modifies this, rec
      decreases end
      ensures end == NativeEnd && statusCode == old(statusCode)
      ensures returned == nativeReturn
      ensures rec.nextSpan == old(rec.nextSpan)
      ensures rec.calls == old(rec.calls) + EndRun(old(end), args, requestPath, old(statusCode))
    {
      match end
      case NativeEnd =>
        rec.Invoke(END, args);
        returned := nativeReturn;
      case TracedEnd(spans, original) =>
        end := original;
        returned := End(args, requestPath, nativeReturn, rec);
        RecordEnd(spans, requestPath, statusCode, rec);
    }
  }

  /** The start of the middleware: the root spans, child of what each tracer extracts, and their start tags. */
  method StartRequest(store: ContextStore, tracers: seq<Tracer>, url: Value, req: Request, rec: Recorder)
    returns (spans: seq<SpanId>)
    modifies store, rec
    ensures spans == Consecutive(old(rec.nextSpan), |tracers|)
    ensures rec.nextSpan == old(rec.nextSpan) + |tracers|
    ensures rec.calls == old(rec.calls)
      + RootStarts(tracers, OPERATION_NAME, Extracted(tracers, req.headers), map[], old(rec.nextSpan))
      + StartCalls(spans, url, req.verb, req.remoteAddress)
    ensures store.context == RootsAssigned(old(store.context), Namespaces(tracers), old(rec.nextSpan))
    ensures old(store.Valid()) ==> store.Valid()
  {
    spans := StartRootSpans(store, tracers, OPERATION_NAME, Extracted(tracers, req.headers), map[], rec);
    RecordStart(spans, url, req.verb, req.remoteAddress, rec);
  }

  /**
   * The request middleware of express and restify: one root span per tracer,
   * child of what the tracer extracts from the request headers; the start
   * tags; a wrapper in front of `res.end`; then `next()`.
   */
  method Serve(store: ContextStore, tracers: seq<Tracer>, url: Value, req: Request, res: Response, rec: Recorder)
    returns (spans: seq<SpanId>)
    modifies store, res, rec
    ensures spans == Consecutive(old(rec.nextSpan), |tracers|)
    ensures rec.nextSpan == old(rec.nextSpan) + |tracers|
    ensures rec.calls == old(rec.calls)
      + RootStarts(tracers, OPERATION_NAME, Extracted(tracers, req.headers), map[], old(rec.nextSpan))
      + StartCalls(spans, url, req.verb, req.remoteAddress) + [Invoke(NEXT, [])]
    ensures res.end == TracedEnd(spans, old(res.end)) && res.statusCode == old(res.statusCode)
    ensures store.context == RootsAssigned(old(store.context), Namespaces(tracers), old(rec.nextSpan))
    ensures old(store.Valid()) ==> store.Valid()
  {
    spans := StartRequest(store, tracers, url, req, rec);
    res.end := TracedEnd(spans, res.end);
    rec.Invoke(NEXT, []);
  }

  /* --------------------------------------------------- start options bag */

  /** The object `{ childOf: parent, tags }` koa and mali hand to `cls.startRootSpan` as its parent. */
  function Bag(parent: Value, tags: Slot): Value {
    Dict(map["childOf" := parent, "tags" := Dict(tags)])
  }

  function Bags(parents: seq<Value>, tags: Slot): (r: seq<Value>)
    ensures |r| == |parents|
  {
    seq(|parents|, i requires 0 <= i < |parents| => Bag(parents[i], tags))
  }

  /**
   * As written: `cls.startRootSpan` passes its third argument on as `childOf`,
   * so with an options bag the i-th span is not the one the bag asks for (the
   * extracted parent and the tags) whenever there are tags to set.
   */
  lemma BagDropsTags(tracers: seq<Tracer>, name: string, parents: seq<Value>, tags: Slot, base: SpanId, i: nat)
    requires |parents| == |tracers| && i < |tracers|
    ensures RootStarts(tracers, name, Bags(parents, tags), map[], base)[i]
      == Call.StartSpan(tracers[i].id, base + i, name, Bag(parents[i], tags), map[])
    ensures tags != map[] ==>
      RootStarts(tracers, name, Bags(parents, tags), map[], base)[i] != RootStarts(tracers, name, parents, tags, base)[i]
  {
    RootStartsAt(tracers, name, Bags(parents, tags), map[], base, i);
    RootStartsAt(tracers, name, parents, tags, base, i);
  }
}
