/**
 * The http client adapter (src/instrumentation/httpClient.js): `http.request`,
 * and on Node 8 or later also `http.get`, are wrapped so that every request
 * with options gets one child span per tracer, carries every tracer's span in
 * its headers, and finishes its spans on the response or on an error.
 */
module HttpClient {
  import opened Wrappers
  import opened Tracing
  import opened Cls
  import opened Lifecycle
  import opened Callbacks
  import opened Http
  import Shim

  const NAME := "httpClient"
  const OPERATION_NAME := "http_request"
  const REQUEST := "request"
  const GET := "get"
  /** The response listener the original receives. */
  const RESPONSE_HANDLER := Fn("onResponse")

  /** The methods wrapped: `get` too when the runtime is Node 8 or later. */
  function Patched(node8: bool): seq<string> {
    if node8 then [REQUEST, GET] else [REQUEST]
  }

  /**
   * `extractUrl(options)`: a string is the URL itself; otherwise the URL is
   * formatted from the protocol (the options', else the agent's), the host
   * name (default 'localhost'), the port and the path (default '/'). The agent
   * is `options._defaultAgent`, else the global agent, whose protocol is given.
   */
  function ExtractUrl(options: Value, globalProtocol: Value, format: UrlParts -> string): (uri: string)
    ensures options.Str? ==> uri == options.s
    ensures !options.Str? ==> uri == format(UrlParts(Or(Property(options, "protocol"), AgentProtocol(options, globalProtocol)),
                                                     Hostname(options), Property(options, "port"), Path(options), Undefined))
  {
    if options.Str? then options.s
    else
      format(UrlParts(Or(Property(options, "protocol"), AgentProtocol(options, globalProtocol)),
                      Hostname(options), Property(options, "port"), Path(options), Undefined))
  }

  /** `(options._defaultAgent || httpAgent.globalAgent).protocol`, the global agent's protocol given. */
  function AgentProtocol(options: Value, globalProtocol: Value): (r: Value)
    ensures Truthy(Property(options, "_defaultAgent")) ==> r == Property(Property(options, "_defaultAgent"), "protocol")
    ensures !Truthy(Property(options, "_defaultAgent")) ==> r == globalProtocol
  {
    var agent := Property(options, "_defaultAgent");
    if Truthy(agent) then Property(agent, "protocol") else globalProtocol
  }

  /** The options the original is called with: the copy, with every tracer's span injected into its headers. */
  function Sent(options: Value, parse: string -> map<string, Value>, tracers: seq<Tracer>, spans: seq<SpanId>): map<string, Value> {
    var copy := Copied(options, parse);
    copy["headers" := Dict(InjectedAll(Headers(copy), tracers, SpansByTracer(spans, |tracers|)))]
  }

  /**
   * With distinct tracer headers and one span per tracer, the headers sent
   * carry each tracer's own span under its header; a header no tracer writes
   * keeps the value the caller gave it.
   */
  lemma SentHeaders(options: Value, parse: string -> map<string, Value>, tracers: seq<Tracer>, spans: seq<SpanId>, i: nat, key: string)
    requires |spans| == |tracers| && i < |tracers|
    requires forall j, k :: 0 <= j < k < |tracers| ==> tracers[j].header != tracers[k].header
    ensures var sent := Sent(options, parse, tracers, spans)["headers"].fields;
      tracers[i].header in sent && sent[tracers[i].header] == Span(spans[i])
    ensures (forall j :: 0 <= j < |tracers| ==> tracers[j].header != key) ==>
      var sent := Sent(options, parse, tracers, spans)["headers"].fields;
      var given := Headers(Copied(options, parse));
      (key in sent <==> key in given) && (key in given ==> sent[key] == given[key])
  {
    var copy := Copied(options, parse);
    var values := SpansByTracer(spans, |tracers|);
    InjectedAllHeaders(Headers(copy), tracers, values, i);
    if forall j :: 0 <= j < |tracers| ==> tracers[j].header != key {
      InjectedAllKeeps(Headers(copy), tracers, values, key);
    }
  }

  /** url, method and the client kind, on every span in turn. */
  function RequestTags(spans: seq<SpanId>, uri: string, verb: Value): seq<Call> {
    OpCalls(spans, TagOp(HTTP_URL, Str(uri))) + OpCalls(spans, TagOp(HTTP_METHOD, verb))
      + OpCalls(spans, TagOp(SPAN_KIND_RPC_CLIENT, Bool(true)))
  }

  method TagRequest(spans: seq<SpanId>, uri: string, verb: Value, rec: Recorder)
    modifies rec
    ensures rec.nextSpan == old(rec.nextSpan)
    ensures rec.calls == old(rec.calls) + RequestTags(spans, uri, verb)
  {
    rec.ForEach(spans, TagOp(HTTP_URL, Str(uri)));
    rec.ForEach(spans, TagOp(HTTP_METHOD, verb));
    rec.ForEach(spans, TagOp(SPAN_KIND_RPC_CLIENT, Bool(true)));
  }

  /** Starting the spans and injecting them into a copy of the options' headers. */
  method Prepare(store: ContextStore, tracers: seq<Tracer>, options: Value, parse: string -> map<string, Value>, rec: Recorder)
    returns (spans: seq<SpanId>, sent: map<string, Value>)
    requires store.Valid()
    modifies rec
    ensures spans == Consecutive(old(rec.nextSpan), |tracers|)
    ensures rec.nextSpan == old(rec.nextSpan) + |tracers|
    ensures sent == Sent(options, parse, tracers, spans)
    ensures rec.calls == old(rec.calls)
      + ChildStarts(store.context, tracers, OPERATION_NAME, map[], old(rec.nextSpan))
      + InjectCalls(tracers, SpansByTracer(spans, |tracers|))
  {
    spans := StartChildSpans(store, tracers, OPERATION_NAME, map[], rec);
    var copy := Copied(options, parse);
    var headers := InjectAll(tracers, SpansByTracer(spans, |tracers|), Headers(copy), rec);
    sent := copy["headers" := Dict(headers)];
  }

  /**
   * `requestTrace(options, callback)` wrapping the original `target`: falsy
   * options go to the original as they are, with no span; otherwise one
   * 'http_request' child span per tracer, each tracer's span injected into a
   * copy of the headers, the url, method and kind tags, and one call of the
   * original with the copy and the adapter's response listener. Either way
   * what the original returns (the request object) is returned.
   */
  method RequestTrace(store: ContextStore, tracers: seq<Tracer>, target: string, options: Value, callback: Value,
                      globalProtocol: Value, format: UrlParts -> string, parse: string -> map<string, Value>,
                      returnedByOriginal: Value, rec: Recorder)
    returns (returned: Value, spans: seq<SpanId>, sent: Option<map<string, Value>>)
    requires store.Valid()
    modifies rec
    ensures returned == returnedByOriginal
    ensures !Truthy(options) ==>
      && spans == [] && sent == None && rec.nextSpan == old(rec.nextSpan)
      && rec.calls == old(rec.calls) + [Invoke(target, [options, callback])]
    ensures Truthy(options) ==>
      && spans == Consecutive(old(rec.nextSpan), |tracers|)
      && rec.nextSpan == old(rec.nextSpan) + |tracers|
      && sent == Some(Sent(options, parse, tracers, spans))
      && rec.calls == old(rec.calls)
        + ChildStarts(store.context, tracers, OPERATION_NAME, map[], old(rec.nextSpan))
        + InjectCalls(tracers, SpansByTracer(spans, |tracers|))
        + RequestTags(spans, ExtractUrl(options, globalProtocol, format), Method(options))
        + [Invoke(target, [Dict(sent.value), RESPONSE_HANDLER])]
  {
    if !Truthy(options) {
      rec.Invoke(target, [options, callback]);
      return returnedByOriginal, [], None;
    }
    var headers;
    returned, spans, headers := TraceRequest(store, tracers, target, options, globalProtocol, format, parse, returnedByOriginal, rec);
    sent := Some(headers);
  }

  /** The traced path of `requestTrace`; `req`, what the original returns, is returned. */
  method TraceRequest(store: ContextStore, tracers: seq<Tracer>, target: string, options: Value,
                      globalProtocol: Value, format: UrlParts -> string, parse: string -> map<string, Value>,
                      returnedByOriginal: Value, rec: Recorder)
    returns (returned: Value, spans: seq<SpanId>, sent: map<string, Value>)
    requires store.Valid()
    modifies rec
    ensures returned == returnedByOriginal
    ensures spans == Consecutive(old(rec.nextSpan), |tracers|)
    ensures rec.nextSpan == old(rec.nextSpan) + |tracers|
    ensures sent == Sent(options, parse, tracers, spans)
    ensures rec.calls == old(rec.calls)
      + ChildStarts(store.context, tracers, OPERATION_NAME, map[], old(rec.nextSpan))
      + InjectCalls(tracers, SpansByTracer(spans, |tracers|))
      + RequestTags(spans, ExtractUrl(options, globalProtocol, format), Method(options))
      + [Invoke(target, [Dict(sent), RESPONSE_HANDLER])]
  {
    spans, sent := Prepare(store, tracers, options, parse, rec);
    TagRequest(spans, ExtractUrl(options, globalProtocol, format), Method(options), rec);
    rec.Invoke(target, [Dict(sent), RESPONSE_HANDLER]);
    returned := returnedByOriginal;
  }

  /** What one event of the request records: the response and the error listeners finish; nothing else listens. */
  function ClientStep(spans: seq<SpanId>, callback: Value, e: Event): seq<Call>
    requires CallbackArg(callback)
  {
    match e
    case ResponseEvent(res) => ResponseCalls(spans, res) + OpCalls(spans, FinishOp) + FireCalls(CallbackOf(callback), [ResponseValue(res)])
    case ErrorEvent(err) => ErrorCalls(spans, err) + OpCalls(spans, FinishOp)
    case _ => []
  }

  function ClientRun(spans: seq<SpanId>, callback: Value, events: seq<Event>): seq<Call>
    requires CallbackArg(callback)
  {
    if events == [] then []
    else ClientRun(spans, callback, events[..|events| - 1]) + ClientStep(spans, callback, events[|events| - 1])
  }

  /** The response listener: status, headers, finish, then the caller's callback with the response. */
  method OnResponse(spans: seq<SpanId>, callback: Value, res: Response, rec: Recorder)
    requires CallbackArg(callback)
    modifies rec
    ensures rec.nextSpan == old(rec.nextSpan)
    ensures rec.calls == old(rec.calls) + ClientStep(spans, callback, ResponseEvent(res))
  {
    ghost var journal := rec.calls;
    RecordResponse(spans, res, rec);
    rec.ForEach(spans, FinishOp);
    ghost var recorded := rec.calls;
    if Truthy(callback) {
      rec.Invoke(callback.name, [ResponseValue(res)]);
    }
    assert rec.calls == recorded + FireCalls(CallbackOf(callback), [ResponseValue(res)]);
    Regroup(journal, ResponseCalls(spans, res), OpCalls(spans, FinishOp), FireCalls(CallbackOf(callback), [ResponseValue(res)]));
  }

  /** The 'error' listener: the error tag, the error fields when there is an error, finish. */
  method OnError(spans: seq<SpanId>, callback: Value, err: Value, rec: Recorder)
    requires CallbackArg(callback)
    modifies rec
    ensures rec.nextSpan == old(rec.nextSpan)
    ensures rec.calls == old(rec.calls) + ClientStep(spans, callback, ErrorEvent(err))
  {
    RecordRequestError(spans, err, rec);
    rec.ForEach(spans, FinishOp);
  }

  /** One event does not finish a span outside the request, and finishes each of its spans once if it is a response or an error. */
  lemma ClientStepFinishes(spans: seq<SpanId>, callback: Value, e: Event, s: SpanId)
    requires CallbackArg(callback) && Distinct(spans)
    ensures multiset(ClientStep(spans, callback, e))[Finish(s)]
      == if s in spans && (e.ResponseEvent? || e.ErrorEvent?) then 1 else 0
  {
    FinishEachOnce(spans, s);
    match e
    case ResponseEvent(res) =>
      ResponseTags(spans, res, s);
      assert multiset(ResponseCalls(spans, res))[Finish(s)] == 0;
      assert multiset(FireCalls(CallbackOf(callback), [ResponseValue(res)]))[Finish(s)] == 0;
    case ErrorEvent(err) =>
      ErrorTags(spans, err, s);
      assert multiset(ErrorCalls(spans, err))[Finish(s)] == 0;
    case _ =>
  }

  /**
   * Whatever the request sees, each of its spans is finished once per
   * response and once per error, and no other span is finished: once in all
   * for a request that gets a response or an error.
   */
  lemma {:induction false} FinishedPerOutcome(spans: seq<SpanId>, callback: Value, events: seq<Event>, s: SpanId)
    requires CallbackArg(callback) && Distinct(spans)
    ensures multiset(ClientRun(spans, callback, events))[Finish(s)]
      == if s in spans then CountResponses(events) + CountErrors(events) else 0
  {
    if events != [] {
      var n := |events| - 1;
      FinishedPerOutcome(spans, callback, events[..n], s);
      ClientStepFinishes(spans, callback, events[n], s);
    }
  }

  /** `patch(http, tracers)`. */
  method Patch(http: Shim.Target, node8: bool)
    modifies http
    ensures http.slots == Shim.WrapSlots(old(http.slots), Patched(node8), NAME)
  {
    http.WrapEach(Patched(node8), NAME);
  }

  /** `unpatch(http)`: the same methods, under the same runtime version. */
  method Unpatch(http: Shim.Target, node8: bool)
    modifies http
    ensures http.slots == Shim.UnwrapSlots(old(http.slots), Patched(node8))
  {
    http.UnwrapEach(Patched(node8));
  }
}
