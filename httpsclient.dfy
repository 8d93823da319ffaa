/**
 * The https client adapter (src/instrumentation/https-client.js): like the
 * http one, but the spans are requested with their tags (which
 * `cls.startChildSpan` drops; the model passes them on, as corrected),
 * requests to a trace collector ('/api/traces') get no span at all, and
 * finishing is meant to happen once, guarded by the request's `isFinish` flag,
 * because the response's 'end' and the socket's 'close' can both come.
 */
module HttpsClient {
  import opened Wrappers
  import opened Tracing
  import opened Cls
  import opened Lifecycle
  import opened Callbacks
  import opened Http
  import Shim

  const NAME := "httpsClient"
  const OPERATION_NAME := "https_request"
  const TRACES_PATH := "/api/traces"
  const REQUEST := "request"
  const GET := "get"
  const RESPONSE_HANDLER := Fn("onResponse")

  function Patched(node8: bool): seq<string> {
    if node8 then [REQUEST, GET] else [REQUEST]
  }

  /** `extractUrl(options)`: a string verbatim, otherwise an https URL from host name, port and path. */
  function ExtractUrl(options: Value, format: UrlParts -> string): (uri: string)
    ensures options.Str? ==> uri == options.s
    ensures !options.Str? ==> uri == format(UrlParts(Str("https"), Hostname(options), Property(options, "port"), Undefined, Path(options)))
  {
    if options.Str? then options.s else format(UrlParts(Str("https"), Hostname(options), Property(options, "port"), Undefined, Path(options)))
  }

  /**
   * `getOriginUrlWithoutQs(options.path || options.pathName) || OPERATION_NAME`,
   * with the helper given as `originWithoutQs`.
   */
  function SpanName(options: Value, originWithoutQs: Value -> string): (name: string)
    ensures name != ""
    ensures originWithoutQs(Or(Property(options, "path"), Property(options, "pathName"))) == "" ==> name == OPERATION_NAME
    ensures name != OPERATION_NAME ==> name == originWithoutQs(Or(Property(options, "path"), Property(options, "pathName")))
  {
    var origin := originWithoutQs(Or(Property(options, "path"), Property(options, "pathName")));
    if origin != "" then origin else OPERATION_NAME
  }

  /** `uri.indexOf(sub) >= 0`. */
  predicate Contains(uri: string, sub: string) {
    if |uri| < |sub| then false else uri[..|sub|] == sub || Contains(uri[1..], sub)
  }

  function RequestTags(uri: string, verb: Value): Slot {
    map[SPAN_KIND := Str(SPAN_KIND_RPC_CLIENT), HTTP_URL := Str(uri), HTTP_METHOD := verb]
  }

  /** The spans a traced request starts: none for a trace-collector URL, else one per tracer. */
  method StartRequestSpans(store: ContextStore, tracers: seq<Tracer>, name: string, uri: string, verb: Value, rec: Recorder)
    returns (spans: seq<SpanId>)
    requires store.Valid() && name != ""
    modifies rec
    ensures Contains(uri, TRACES_PATH) ==> spans == [] && rec.nextSpan == old(rec.nextSpan) && rec.calls == old(rec.calls)
    ensures !Contains(uri, TRACES_PATH) ==>
      && spans == Consecutive(old(rec.nextSpan), |tracers|)
      && rec.nextSpan == old(rec.nextSpan) + |tracers|
      && rec.calls == old(rec.calls) + ChildStarts(store.context, tracers, name, RequestTags(uri, verb), old(rec.nextSpan))
  {
    if Contains(uri, TRACES_PATH) {
      return [];
    }
    spans := StartChildSpans(store, tracers, name, RequestTags(uri, verb), rec);
  }

  /**
   * `requestTrace(options, callback)` on the traced path: the spans, then every
   * tracer's `spans[key]` injected into a copy of the headers (undefined when no
   * span was started), then one call of the original, whose result `req` is
   * returned.
   */
  method TraceRequest(store: ContextStore, tracers: seq<Tracer>, target: string, options: Value,
                      format: UrlParts -> string, originWithoutQs: Value -> string, parse: string -> map<string, Value>,
                      returnedByOriginal: Value, rec: Recorder)
    returns (returned: Value, spans: seq<SpanId>, sent: map<string, Value>)
    requires store.Valid()
    modifies rec
    ensures returned == returnedByOriginal
    ensures var uri := ExtractUrl(options, format);
      && (Contains(uri, TRACES_PATH) ==> spans == [] && rec.nextSpan == old(rec.nextSpan))
      && (!Contains(uri, TRACES_PATH) ==> spans == Consecutive(old(rec.nextSpan), |tracers|) && rec.nextSpan == old(rec.nextSpan) + |tracers|)
    ensures sent == Copied(options, parse)["headers" := Dict(InjectedAll(Headers(Copied(options, parse)), tracers, SpansByTracer(spans, |tracers|)))]
    ensures rec.calls == old(rec.calls)
      + (if Contains(ExtractUrl(options, format), TRACES_PATH) then []
         else ChildStarts(store.context, tracers, SpanName(options, originWithoutQs), RequestTags(ExtractUrl(options, format), Method(options)), old(rec.nextSpan)))
      + InjectCalls(tracers, SpansByTracer(spans, |tracers|))
      + [Invoke(target, [Dict(sent), RESPONSE_HANDLER])]
  {
    ghost var journal := rec.calls;
    spans := StartRequestSpans(store, tracers, SpanName(options, originWithoutQs), ExtractUrl(options, format), Method(options), rec);
    ghost var starts := if Contains(ExtractUrl(options, format), TRACES_PATH) then []
      else ChildStarts(store.context, tracers, SpanName(options, originWithoutQs), RequestTags(ExtractUrl(options, format), Method(options)), old(rec.nextSpan));
    assert rec.calls == journal + starts;
    sent := InjectAndSend(tracers, spans, target, options, parse, rec);
    Regroup(journal, starts, InjectCalls(tracers, SpansByTracer(spans, |tracers|)), [Invoke(target, [Dict(sent), RESPONSE_HANDLER])]);
    returned := returnedByOriginal;
  }

  /** The copy of the options with every tracer's `spans[key]` injected, then one call of the original with it. */
  method InjectAndSend(tracers: seq<Tracer>, spans: seq<SpanId>, target: string, options: Value,
                       parse: string -> map<string, Value>, rec: Recorder)
    returns (sent: map<string, Value>)
    modifies rec
    ensures rec.nextSpan == old(rec.nextSpan)
    ensures sent == Copied(options, parse)["headers" := Dict(InjectedAll(Headers(Copied(options, parse)), tracers, SpansByTracer(spans, |tracers|)))]
    ensures rec.calls == old(rec.calls) + (InjectCalls(tracers, SpansByTracer(spans, |tracers|)) + [Invoke(target, [Dict(sent), RESPONSE_HANDLER])])
  {
    var copy := Copied(options, parse);
    var headers := InjectAll(tracers, SpansByTracer(spans, |tracers|), Headers(copy), rec);
    sent := copy["headers" := Dict(headers)];
    rec.Invoke(target, [Dict(sent), RESPONSE_HANDLER]);
  }

  /**
   * `requestTrace(options, callback)`: falsy options go to the original as they
   * are. Either way what the original returns is returned.
   */
  method RequestTrace(store: ContextStore, tracers: seq<Tracer>, target: string, options: Value, callback: Value,
                      format: UrlParts -> string, originWithoutQs: Value -> string, parse: string -> map<string, Value>,
                      returnedByOriginal: Value, rec: Recorder)
    returns (returned: Value, spans: seq<SpanId>, sent: Option<map<string, Value>>)
    requires store.Valid()
    modifies rec
    ensures returned == returnedByOriginal
    ensures !Truthy(options) ==>
      && spans == [] && sent == None && rec.nextSpan == old(rec.nextSpan)
      && rec.calls == old(rec.calls) + [Invoke(target, [options, callback])]
    ensures Truthy(options) && Contains(ExtractUrl(options, format), TRACES_PATH) ==>
      spans == [] && rec.nextSpan == old(rec.nextSpan) && sent.Some?
    ensures Truthy(options) && !Contains(ExtractUrl(options, format), TRACES_PATH) ==>
      spans == Consecutive(old(rec.nextSpan), |tracers|) && rec.nextSpan == old(rec.nextSpan) + |tracers| && sent.Some?
  {
    if !Truthy(options) {
      rec.Invoke(target, [options, callback]);
      return returnedByOriginal, [], None;
    }
    var headers;
    returned, spans, headers := TraceRequest(store, tracers, target, options, format, originWithoutQs, parse, returnedByOriginal, rec);
    sent := Some(headers);
  }

  /**
   * One event as the listeners are written: the response records and calls
   * back; 'end' finishes; 'close' finishes unless finished; an error records
   * and finishes without looking at, or setting, the flag.
   */
  function Step(spans: seq<SpanId>, callback: Value, finished: bool, e: Event): (bool, seq<Call>)
    requires CallbackArg(callback)
  {
    match e
    case ResponseEvent(res) => (finished, ResponseCalls(spans, res) + FireCalls(CallbackOf(callback), [ResponseValue(res)]))
    case EndEvent => (true, OpCalls(spans, FinishOp))
    case CloseEvent => if finished then (true, []) else (true, OpCalls(spans, FinishOp))
    case ErrorEvent(err) => (finished, ErrorCalls(spans, err) + OpCalls(spans, FinishOp))
  }

  /** One event when every finishing path goes through `finish()` and `finish()` does nothing once finished. */
  function GuardedStep(spans: seq<SpanId>, callback: Value, finished: bool, e: Event): (bool, seq<Call>)
    requires CallbackArg(callback)
  {
    match e
    case ResponseEvent(res) => (finished, ResponseCalls(spans, res) + FireCalls(CallbackOf(callback), [ResponseValue(res)]))
    case ErrorEvent(err) => (true, ErrorCalls(spans, err) + (if finished then [] else OpCalls(spans, FinishOp)))
    case _ => (true, if finished then [] else OpCalls(spans, FinishOp))
  }

  /** A series of events, as written. */
  function Run(spans: seq<SpanId>, callback: Value, finished: bool, events: seq<Event>): (bool, seq<Call>)
    requires CallbackArg(callback)
  {
    if events == [] then (finished, [])
    else
      var (f, calls) := Run(spans, callback, finished, events[..|events| - 1]);
      var (f', more) := Step(spans, callback, f, events[|events| - 1]);
      (f', calls + more)
  }

  /** A series of events, with the guarded finish. */
  function GuardedRun(spans: seq<SpanId>, callback: Value, finished: bool, events: seq<Event>): (bool, seq<Call>)
    requires CallbackArg(callback)
  {
    if events == [] then (finished, [])
    else
      var (f, calls) := GuardedRun(spans, callback, finished, events[..|events| - 1]);
      var (f', more) := GuardedStep(spans, callback, f, events[|events| - 1]);
      (f', calls + more)
  }

  /** Whether any event of the series finishes: 'end', 'close' or an error. */
  predicate AnyFinishing(events: seq<Event>) {
    events != [] && (AnyFinishing(events[..|events| - 1]) || !events[|events| - 1].ResponseEvent?)
  }

  /**
   * As written, an error followed by the socket closing finishes every span
   * twice: the error handler finishes without setting `isFinish`, so the close
   * handler finishes again.
   */
  lemma ErrorThenCloseFinishesTwice(spans: seq<SpanId>, callback: Value, err: Value, s: SpanId)
    requires CallbackArg(callback) && Distinct(spans) && s in spans
    ensures multiset(Run(spans, callback, false, [ErrorEvent(err), CloseEvent]).1)[Finish(s)] == 2
  {
    var finishes := OpCalls(spans, FinishOp);
    ErrorThenCloseCalls(spans, callback, err);
    FinishEachOnce(spans, s);
    ErrorTags(spans, err, s);
    assert multiset(ErrorCalls(spans, err))[Finish(s)] == 0;
    assert multiset(ErrorCalls(spans, err) + finishes + finishes)
      == multiset(ErrorCalls(spans, err)) + multiset(finishes) + multiset(finishes);
  }

  lemma ErrorThenCloseCalls(spans: seq<SpanId>, callback: Value, err: Value)
    requires CallbackArg(callback)
    ensures Run(spans, callback, false, [ErrorEvent(err), CloseEvent]).1
      == ErrorCalls(spans, err) + OpCalls(spans, FinishOp) + OpCalls(spans, FinishOp)
  {
    var events := [ErrorEvent(err), CloseEvent];
    var finishes := OpCalls(spans, FinishOp);
    assert events[..1] == [ErrorEvent(err)];
    assert events[..1][..0] == [];
    assert Run(spans, callback, false, events[..1][..0]) == (false, []);
    assert Step(spans, callback, false, ErrorEvent(err)) == (false, ErrorCalls(spans, err) + finishes);
    assert [] + (ErrorCalls(spans, err) + finishes) == ErrorCalls(spans, err) + finishes;
    assert Run(spans, callback, false, events[..1]) == (false, ErrorCalls(spans, err) + finishes);
  }

  lemma GuardedStepFinishes(spans: seq<SpanId>, callback: Value, finished: bool, e: Event, s: SpanId)
    requires CallbackArg(callback) && Distinct(spans)
    ensures GuardedStep(spans, callback, finished, e).0 == (finished || !e.ResponseEvent?)
    ensures multiset(GuardedStep(spans, callback, finished, e).1)[Finish(s)]
      == if s in spans && !finished && !e.ResponseEvent? then 1 else 0
  {
    FinishEachOnce(spans, s);
    match e
    case ResponseEvent(res) =>
      ResponseTags(spans, res, s);
      assert multiset(ResponseCalls(spans, res))[Finish(s)] == 0;
      assert multiset(FireCalls(CallbackOf(callback), [ResponseValue(res)]))[Finish(s)] == 0;
    case ErrorEvent(err) =>
      ErrorTags(spans, err, s);
      assert multiset(ErrorCalls(spans, err))[Finish(s)] == 0;
    case _ =>
  }

  /**
   * With the guarded finish, whatever the request sees, each of its spans is
   * finished at most once: exactly once if some event finishes and the spans
   * were not finished already, and the flag records exactly that.
   */
  lemma {:induction false} FinishedAtMostOnce(spans: seq<SpanId>, callback: Value, finished: bool, events: seq<Event>, s: SpanId)
    requires CallbackArg(callback) && Distinct(spans)
    ensures GuardedRun(spans, callback, finished, events).0 == (finished || AnyFinishing(events))
    ensures multiset(GuardedRun(spans, callback, finished, events).1)[Finish(s)]
      == if s in spans && !finished && AnyFinishing(events) then 1 else 0
  {
    if events != [] {
      var n := |events| - 1;
      FinishedAtMostOnce(spans, callback, finished, events[..n], s);
      var f := GuardedRun(spans, callback, finished, events[..n]).0;
      GuardedStepFinishes(spans, callback, f, events[n], s);
    }
  }

  /** A client request: its spans, the caller's callback, and whether `finish()` has run. */
  class HttpsRequest {
    const spans: seq<SpanId>
    const callback: Value
    var isFinish: bool

    constructor (spans: seq<SpanId>, callback: Value)
      requires CallbackArg(callback)
      ensures this.spans == spans && this.callback == callback && !isFinish
    {
      this.spans := spans;
      this.callback := callback;
      isFinish := false;
    }

    /** `finish()`: finish every span and set the flag. */
    method FinishSpans(rec: Recorder)
      modifies this, rec
      ensures isFinish && rec.nextSpan == old(rec.nextSpan)
      ensures rec.calls == old(rec.calls) + OpCalls(spans, FinishOp)
    {
      rec.ForEach(spans, FinishOp);
      isFinish := true;
    }

    /** The response listener: records, then calls back with the response. */
    method OnResponse(res: Response, rec: Recorder)
      requires CallbackArg(callback)
      modifies rec
      ensures rec.nextSpan == old(rec.nextSpan)
      ensures rec.calls == old(rec.calls) + ResponseCalls(spans, res) + FireCalls(CallbackOf(callback), [ResponseValue(res)])
    {
      RecordResponse(spans, res, rec);
      if Truthy(callback) {
        rec.Invoke(callback.name, [ResponseValue(res)]);
      }
    }

    /** The listeners as written, for one event. */
    method Dispatch(e: Event, rec: Recorder)
      requires CallbackArg(callback)
      modifies this, rec
      ensures rec.nextSpan == old(rec.nextSpan)
      ensures isFinish == Step(spans, callback, old(isFinish), e).0
      ensures rec.calls == old(rec.calls) + Step(spans, callback, old(isFinish), e).1
    {
      match e
      case ResponseEvent(res) =>
        OnResponse(res, rec);
      case EndEvent =>
        FinishSpans(rec);
      case CloseEvent =>
        if !isFinish {
          FinishSpans(rec);
        }
      case ErrorEvent(err) =>
        RecordRequestError(spans, err, rec);
        rec.ForEach(spans, FinishOp);
    }

    /** The listeners with every finish going through the guarded `finish()`, for one event. */
    method DispatchGuarded(e: Event, rec: Recorder)
      requires CallbackArg(callback)
      modifies this, rec
      ensures rec.nextSpan == old(rec.nextSpan)
      ensures isFinish == GuardedStep(spans, callback, old(isFinish), e).0
      ensures rec.calls == old(rec.calls) + GuardedStep(spans, callback, old(isFinish), e).1
    {
      match e
      case ResponseEvent(res) =>
        OnResponse(res, rec);
      case ErrorEvent(err) =>
        RecordRequestError(spans, err, rec);
        if !isFinish {
          FinishSpans(rec);
        }
      case _ =>
        if !isFinish {
          FinishSpans(rec);
        }
    }
  }

  method Patch(https: Shim.Target, node8: bool)
    modifies https
    ensures https.slots == Shim.WrapSlots(old(https.slots), Patched(node8), NAME)
  {
    https.WrapEach(Patched(node8), NAME);
  }

  method Unpatch(https: Shim.Target, node8: bool)
    modifies https
    ensures https.slots == Shim.UnwrapSlots(old(https.slots), Patched(node8))
  {
    https.UnwrapEach(Patched(node8));
  }
}
