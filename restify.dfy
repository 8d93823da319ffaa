/**
 * The restify adapter (src/instrumentation/restify.js): `createServer` is
 * wrapped so that every server it makes uses the tracing middleware, which
 * opens one root span per tracer for each request and finishes them when the
 * response ends.
 */
module Restify {
  import opened Wrappers
  import opened Tracing
  import opened Cls
  import opened Lifecycle
  import opened Server
  import Shim

  const NAME := "restify"
  const CREATE_SERVER := "createServer"
  const MIDDLEWARE := Fn("middleware")

  /** A restify request as the middleware reads it. */
  datatype RestifyRequest = RestifyRequest(url: Value, headers: Option<map<string, Value>>, verb: Value, remoteAddress: Value)

  /**
   * `createServerWrapped(...args)`: the original makes the server, the
   * middleware is added to it with `server.use`, and that same server is
   * returned.
   */
  method CreateServerWrapped(args: seq<Value>, server: Value, rec: Recorder)
    returns (returned: Value)
    modifies rec
    ensures returned == server
    ensures rec.nextSpan == old(rec.nextSpan)
    ensures rec.calls == old(rec.calls) + [Invoke(CREATE_SERVER, args), Invoke(USE, [MIDDLEWARE])]
  {
    rec.Invoke(CREATE_SERVER, args);
    rec.Invoke(USE, [MIDDLEWARE]);
    returned := server;
  }

  /** `middleware(req, res, next)`: the URL tag is `req.url` as it is. */
  method Middleware(store: ContextStore, tracers: seq<Tracer>, req: RestifyRequest, res: Response, rec: Recorder)
    returns (spans: seq<SpanId>)
    modifies store, res, rec
    ensures spans == Consecutive(old(rec.nextSpan), |tracers|)
    ensures rec.nextSpan == old(rec.nextSpan) + |tracers|
    ensures rec.calls == old(rec.calls)
      + RootStarts(tracers, OPERATION_NAME, Extracted(tracers, req.headers), map[], old(rec.nextSpan))
      + StartCalls(spans, req.url, req.verb, req.remoteAddress) + [Invoke(NEXT, [])]
    ensures res.end == TracedEnd(spans, old(res.end)) && res.statusCode == old(res.statusCode)
    ensures store.context == RootsAssigned(old(store.context), Namespaces(tracers), old(rec.nextSpan))
    ensures old(store.Valid()) ==> store.Valid()
  {
    spans := Serve(store, tracers, req.url, Request(req.headers, req.verb, req.remoteAddress), res, rec);
  }

  /** `res.end(...args)` on a restify response: the request path `req.path()` is always tagged. */
  method EndResponse(res: Response, args: seq<Value>, path: Value, nativeReturn: Value, rec: Recorder)
    returns (returned: Value)
    modifies res, rec
    ensures res.end == NativeEnd && res.statusCode == old(res.statusCode)
    ensures returned == nativeReturn
    ensures rec.nextSpan == old(rec.nextSpan)
    ensures rec.calls == old(rec.calls) + EndRun(old(res.end), args, Some(path), old(res.statusCode))
  {
    returned := res.End(args, Some(path), nativeReturn, rec);
  }

  /** Every span of a restify response is tagged with the request path, whatever it is. */
  lemma PathAlwaysTagged(spans: seq<SpanId>, path: Value, status: int, s: SpanId)
    ensures SetTag(s, TAG_REQUEST_PATH, path) in EndCalls(spans, Some(path), status) <==> s in spans
  {
    EndTags(spans, Some(path), status, s, path);
  }

  /** `shimmer.wrap(restify, 'createServer', ...)`. */
  method Patch(restify: Shim.Target)
    modifies restify
    ensures restify.slots == Shim.WrapSlot(old(restify.slots), CREATE_SERVER, NAME)
  {
    restify.Wrap(CREATE_SERVER, NAME);
  }

  /** `shimmer.unwrap(restify, 'createServer')`. */
  method Unpatch(restify: Shim.Target)
    modifies restify
    ensures restify.slots == Shim.UnwrapSlot(old(restify.slots), CREATE_SERVER)
  {
    restify.Unwrap(CREATE_SERVER);
  }
}
