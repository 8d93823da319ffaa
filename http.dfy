/**
 * What the http and https client adapters (src/instrumentation/httpClient.js,
 * src/instrumentation/https-client.js) have in common: the URL parts handed to
 * `url.format`, the response and error records, and the events a client request
 * sees. `url.format` and `url.parse` are outside the model; they are parameters.
 */
module Http {
  import opened Tracing
  import opened Callbacks

  /** `a || b`. */
  function Or(a: Value, b: Value): (r: Value)
    ensures Truthy(a) ==> r == a
    ensures !Truthy(a) ==> r == b
  {
    if Truthy(a) then a else b
  }

  /**
   * The object handed to `url.format`. The http client puts the path under the
   * key `path` and the https client under `pathname`; the key not written is
   * undefined.
   */
  datatype UrlParts = UrlParts(protocol: Value, hostname: Value, port: Value, path: Value, pathname: Value)

  /** `options.hostname || options.host || 'localhost'`. */
  function Hostname(options: Value): (r: Value)
    ensures Truthy(Property(options, "hostname")) ==> r == Property(options, "hostname")
    ensures !Truthy(Property(options, "hostname")) && Truthy(Property(options, "host")) ==> r == Property(options, "host")
    ensures !Truthy(Property(options, "hostname")) && !Truthy(Property(options, "host")) ==> r == Str("localhost")
  {
    Or(Or(Property(options, "hostname"), Property(options, "host")), Str("localhost"))
  }

  /** `options.path || options.pathName || '/'`. */
  function Path(options: Value): (r: Value)
    ensures Truthy(Property(options, "path")) ==> r == Property(options, "path")
    ensures !Truthy(Property(options, "path")) && Truthy(Property(options, "pathName")) ==> r == Property(options, "pathName")
    ensures !Truthy(Property(options, "path")) && !Truthy(Property(options, "pathName")) ==> r == Str("/")
  {
    Or(Or(Property(options, "path"), Property(options, "pathName")), Str("/"))
  }

  /** `options.method || 'GET'`. */
  function Method(options: Value): (r: Value)
    ensures Truthy(Property(options, "method")) ==> r == Property(options, "method")
    ensures !Truthy(Property(options, "method")) ==> r == Str("GET")
  {
    Or(Property(options, "method"), Str("GET"))
  }

  /**
   * The options the request is actually made with: `url.parse` of a string,
   * otherwise a fresh copy of the caller's object (`_.merge({}, options)`).
   */
  function Copied(options: Value, parse: string -> map<string, Value>): map<string, Value> {
    match options
    case Str(s) => parse(s)
    case Dict(fields) => fields
    case _ => map[]
  }

  /** `options.headers || {}` on the copy, as a carrier. */
  function Headers(copy: map<string, Value>): (h: map<string, Value>)
    ensures "headers" in copy && copy["headers"].Dict? ==> h == copy["headers"].fields
    ensures !("headers" in copy && copy["headers"].Dict?) ==> h == map[]
  {
    if "headers" in copy && copy["headers"].Dict? then copy["headers"].fields else map[]
  }

  /** The headers a client adapter logs from a response. */
  const PICKED_HEADERS: set<string> := {"server", "content-type", "cache-control"}

  datatype Response = Response(statusCode: int, headers: map<string, Value>)

  function ResponseValue(res: Response): Value {
    Dict(map["statusCode" := Num(res.statusCode), "headers" := Dict(res.headers)])
  }

  /** `_.omitBy(_.pick(res.headers, [...]), _.isUndefined)`. */
  function PickHeaders(headers: map<string, Value>): (r: map<string, Value>)
    ensures forall k :: k in r <==> k in PICKED_HEADERS && k in headers && headers[k] != Undefined
    ensures forall k :: k in r ==> r[k] == headers[k]
  {
    map k | k in headers && k in PICKED_HEADERS && headers[k] != Undefined :: headers[k]
  }

  /** What a response records on the spans: the error tag for a status over 399, the status, the headers. */
  function ResponseCalls(spans: seq<SpanId>, res: Response): seq<Call> {
    (if res.statusCode > 399 then OpCalls(spans, TagOp(ERROR, Bool(true))) else [])
      + OpCalls(spans, TagOp(HTTP_STATUS_CODE, Num(res.statusCode)))
      + OpCalls(spans, LogOp(map["headers" := Dict(PickHeaders(res.headers))]))
  }

  /** What a request error records on the spans: the error tag, then the error fields for a truthy error. */
  function ErrorCalls(spans: seq<SpanId>, err: Value): seq<Call> {
    OpCalls(spans, TagOp(ERROR, Bool(true)))
      + (if Truthy(err) then OpCalls(spans, LogOp(ErrorFields(err))) else [])
  }

  /**
   * A response tags each span, and no other, with its status code, and tags a
   * span with the error exactly when the status is over 399; it finishes nothing.
   */
  lemma ResponseTags(spans: seq<SpanId>, res: Response, s: SpanId)
    ensures SetTag(s, HTTP_STATUS_CODE, Num(res.statusCode)) in ResponseCalls(spans, res) <==> s in spans
    ensures SetTag(s, ERROR, Bool(true)) in ResponseCalls(spans, res) <==> s in spans && res.statusCode > 399
    ensures Finish(s) !in ResponseCalls(spans, res)
  {
    var log := LogOp(map["headers" := Dict(PickHeaders(res.headers))]);
    var status := TagOp(HTTP_STATUS_CODE, Num(res.statusCode));
    var error := TagOp(ERROR, Bool(true));
    InOpCalls(spans, error, SetTag(s, HTTP_STATUS_CODE, Num(res.statusCode)));
    InOpCalls(spans, status, SetTag(s, HTTP_STATUS_CODE, Num(res.statusCode)));
    InOpCalls(spans, log, SetTag(s, HTTP_STATUS_CODE, Num(res.statusCode)));
    InOpCalls(spans, error, SetTag(s, ERROR, Bool(true)));
    InOpCalls(spans, status, SetTag(s, ERROR, Bool(true)));
    InOpCalls(spans, log, SetTag(s, ERROR, Bool(true)));
    InOpCalls(spans, error, Finish(s));
    InOpCalls(spans, status, Finish(s));
    InOpCalls(spans, log, Finish(s));
  }

  /** A request error tags every span, and no other, with the error; it finishes nothing. */
  lemma ErrorTags(spans: seq<SpanId>, err: Value, s: SpanId)
    ensures SetTag(s, ERROR, Bool(true)) in ErrorCalls(spans, err) <==> s in spans
    ensures Finish(s) !in ErrorCalls(spans, err)
  {
    InOpCalls(spans, TagOp(ERROR, Bool(true)), SetTag(s, ERROR, Bool(true)));
    InOpCalls(spans, LogOp(ErrorFields(err)), SetTag(s, ERROR, Bool(true)));
    InOpCalls(spans, TagOp(ERROR, Bool(true)), Finish(s));
    InOpCalls(spans, LogOp(ErrorFields(err)), Finish(s));
  }

  method RecordResponse(spans: seq<SpanId>, res: Response, rec: Recorder)
    modifies rec
    ensures rec.nextSpan == old(rec.nextSpan)
    ensures rec.calls == old(rec.calls) + ResponseCalls(spans, res)
  {
    if res.statusCode > 399 {
      rec.ForEach(spans, TagOp(ERROR, Bool(true)));
    }
    rec.ForEach(spans, TagOp(HTTP_STATUS_CODE, Num(res.statusCode)));
    rec.ForEach(spans, LogOp(map["headers" := Dict(PickHeaders(res.headers))]));
  }

  method RecordRequestError(spans: seq<SpanId>, err: Value, rec: Recorder)
    modifies rec
    ensures rec.nextSpan == old(rec.nextSpan)
    ensures rec.calls == old(rec.calls) + ErrorCalls(spans, err)
  {
    rec.ForEach(spans, TagOp(ERROR, Bool(true)));
    if Truthy(err) {
      rec.ForEach(spans, LogOp(ErrorFields(err)));
    }
  }

  /** What a client request can see happen: its response, the response's end, its socket closing, an error. */
  datatype Event = ResponseEvent(res: Response) | EndEvent | CloseEvent | ErrorEvent(err: Value)

  /** How many events of a series finish under a given predicate, counted by kind. */
  function CountResponses(events: seq<Event>): nat {
    if events == [] then 0 else CountResponses(events[..|events| - 1]) + (if events[|events| - 1].ResponseEvent? then 1 else 0)
  }

  function CountErrors(events: seq<Event>): nat {
    if events == [] then 0 else CountErrors(events[..|events| - 1]) + (if events[|events| - 1].ErrorEvent? then 1 else 0)
  }
}
