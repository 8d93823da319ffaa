/**
 * The express adapter (src/instrumentation/express.js): every application
 * method is wrapped so that the first call on an application without a router
 * installs the tracing middleware, which opens one root span per tracer for
 * each request and finishes them when the response ends.
 */
module Express {
  import opened Wrappers
  import opened Tracing
  import opened Cls
  import opened Lifecycle
  import opened Server
  import Shim

  const NAME := "express"
  const MIDDLEWARE := Fn("middleware")

  /** `require('methods').concat('use', 'route', 'param', 'all')`; the HTTP method names come from that package. */
  function Methods(httpMethods: seq<string>): seq<string> {
    httpMethods + ["use", "route", "param", "all"]
  }

  /** An express request as the middleware reads it. */
  datatype ExpressRequest = ExpressRequest(
    protocol: Value, hostname: Value, originalUrl: Value,
    headers: Option<map<string, Value>>, verb: Value, remoteAddress: Value)

  /** `${req.protocol}://${req.hostname}${req.originalUrl}` */
  function Url(req: ExpressRequest): Value {
    Str(JsString(req.protocol) + "://" + JsString(req.hostname) + JsString(req.originalUrl))
  }

  /** The path tagged when the response ends: `req.route.path`, when both are truthy. */
  function RequestPath(route: Value): Option<Value> {
    if Truthy(route) && Truthy(Property(route, "path")) then Some(Property(route, "path")) else None
  }

  /**
   * A span is tagged with a request path exactly when it belongs to the
   * response, the request has a route with a truthy path, and the tag is that
   * path.
   */
  lemma RoutePathTagged(spans: seq<SpanId>, route: Value, status: int, s: SpanId, path: Value)
    ensures SetTag(s, TAG_REQUEST_PATH, path) in EndCalls(spans, RequestPath(route), status)
      <==> s in spans && Truthy(route) && Truthy(Property(route, "path")) && path == Property(route, "path")
  {
    EndTags(spans, RequestPath(route), status, s, path);
  }

  /** `applicationActionWrapped` installing this adapter's middleware. */
  method ApplicationActionWrapped(app: Application, name: string, args: seq<Value>, returnedByOriginal: Value, rec: Recorder)
    returns (returned: Value)
    modifies app, rec
    ensures returned == returnedByOriginal
    ensures app.patched == (old(app.patched) || !old(app.router)) && app.router == old(app.router)
    ensures rec.nextSpan == old(rec.nextSpan)
    ensures rec.calls == old(rec.calls) + ActionCalls(old(app.patched), old(app.router), MIDDLEWARE, name, args)
  {
    returned := app.ActionWrapped(MIDDLEWARE, name, args, returnedByOriginal, rec);
  }

  /** `middleware(req, res, next)` with the URL express builds. */
  method Middleware(store: ContextStore, tracers: seq<Tracer>, req: ExpressRequest, res: Response, rec: Recorder)
    returns (spans: seq<SpanId>)
    modifies store, res, rec
    ensures spans == Consecutive(old(rec.nextSpan), |tracers|)
    ensures rec.nextSpan == old(rec.nextSpan) + |tracers|
    ensures rec.calls == old(rec.calls)
      + RootStarts(tracers, OPERATION_NAME, Extracted(tracers, req.headers), map[], old(rec.nextSpan))
      + StartCalls(spans, Url(req), req.verb, req.remoteAddress) + [Invoke(NEXT, [])]
    ensures res.end == TracedEnd(spans, old(res.end)) && res.statusCode == old(res.statusCode)
    ensures store.context == RootsAssigned(old(store.context), Namespaces(tracers), old(rec.nextSpan))
    ensures old(store.Valid()) ==> store.Valid()
  {
    spans := Serve(store, tracers, Url(req), Request(req.headers, req.verb, req.remoteAddress), res, rec);
  }

  /** `res.end(...args)` on an express response, the route being what the router left on the request. */
  method EndResponse(res: Response, args: seq<Value>, route: Value, nativeReturn: Value, rec: Recorder)
    returns (returned: Value)
    modifies res, rec
    ensures res.end == NativeEnd && res.statusCode == old(res.statusCode)
    ensures returned == nativeReturn
    ensures rec.nextSpan == old(rec.nextSpan)
    ensures rec.calls == old(rec.calls) + EndRun(old(res.end), args, RequestPath(route), old(res.statusCode))
  {
    returned := res.End(args, RequestPath(route), nativeReturn, rec);
  }

  /** `shimmer.wrap(express.application, method, ...)` for every method name. */
  method Patch(application: Shim.Target, httpMethods: seq<string>)
    modifies application
    ensures application.slots == Shim.WrapSlots(old(application.slots), Methods(httpMethods), NAME)
  {
    application.WrapEach(Methods(httpMethods), NAME);
  }

  /** `shimmer.unwrap(express.application, method)` for every method name. */
  method Unpatch(application: Shim.Target, httpMethods: seq<string>)
    modifies application
    ensures application.slots == Shim.UnwrapSlots(old(application.slots), Methods(httpMethods))
  {
    application.UnwrapEach(Methods(httpMethods));
  }
}
