/**
 * A recording stand-in for the OpenTracing tracer and span capabilities the
 * instrumentation drives. Every call the instrumentation makes on a tracer or a
 * span, and every call it forwards to the instrumented program's own functions,
 * is appended to one journal, in order.
 */
module Tracing {
  import opened Wrappers

  /** A namespace key (the `Symbol('tracer')` the facade gives each tracer). */
  type Symbol = nat
  /** Spans are named by the order in which the tracer created them. */
  type SpanId = nat

  datatype Error = Error(message: string, stack: string)

  /** A span context: that of a local span, or one extracted from an incoming carrier. */
  datatype SpanContext = ContextOf(span: SpanId) | Remote(id: nat)

  /** The JavaScript values the instrumentation passes around. */
  datatype Value =
    | Undefined
    | Str(s: string)
    | Num(n: int)
    | Bool(b: bool)
    | Span(id: SpanId)
    | Ctx(context: SpanContext)
    | Err(error: Error)
    | Fn(name: string)
    | Dict(fields: map<string, Value>)

  /** JavaScript truthiness. */
  predicate Truthy(v: Value) {
    match v
    case Undefined => false
    case Str(s) => s != ""
    case Num(n) => n != 0
    case Bool(b) => b
    case _ => true
  }

  /** The decimal digits of a natural number. */
  function Decimal(n: nat): (r: string)
    ensures |r| > 0
    decreases n
  {
    var digit := ["0", "1", "2", "3", "4", "5", "6", "7", "8", "9"][n % 10];
    if n < 10 then digit else Decimal(n / 10) + digit
  }

  /**
   * `String(value)` for the values the adapters convert: undefined, strings,
   * numbers, booleans and errors, as JavaScript converts them. Every other
   * value is shown as a plain object would be; a function, whose string is its
   * source text, is never converted by the modelled code.
   */
  function JsString(v: Value): (r: string)
    ensures r == "" <==> v == Str("")
    ensures v.Str? ==> r == v.s
  {
    match v
    case Undefined => "undefined"
    case Str(s) => s
    case Num(n) => if n < 0 then "-" + Decimal(-n) else Decimal(n)
    case Bool(b) => if b then "true" else "false"
    case Err(e) => "Error: " + e.message
    case _ => "[object Object]"
  }

  // The standard tag names of the OpenTracing API.
  const SPAN_KIND := "span.kind"
  const SPAN_KIND_RPC_CLIENT := "client"
  const SPAN_KIND_RPC_SERVER := "server"
  const ERROR := "error"
  const HTTP_URL := "http.url"
  const HTTP_METHOD := "http.method"
  const HTTP_STATUS_CODE := "http.status_code"
  const DB_TYPE := "db.type"
  const DB_STATEMENT := "db.statement"
  const DB_INSTANCE := "db.instance"

  /** An array of strings converted to a string, as a template literal does: the items joined by ','. */
  function JoinComma(items: seq<string>): (r: string)
    ensures items == [] ==> r == ""
    ensures |items| == 1 ==> r == items[0]
  {
    if items == [] then ""
    else if |items| == 1 then items[0]
    else JoinComma(items[..|items| - 1]) + "," + items[|items| - 1]
  }

  /**
   * Joining two non-empty arrays is joining each and putting one ',' between
   * them: the string of `a.concat(b)` is `${a},${b}`.
   */
  lemma {:induction false} JoinCommaAppend(a: seq<string>, b: seq<string>)
    requires a != [] && b != []
    ensures JoinComma(a + b) == JoinComma(a) + "," + JoinComma(b)
  {
    var n := |a + b| - 1;
    assert (a + b)[..n] == a + b[..|b| - 1];
    if |b| > 1 {
      JoinCommaAppend(a, b[..|b| - 1]);
    }
  }

  /**
   * A span name `${prefix}_${name}`, as the redis, ioredis and mongodb adapters
   * build them: the prefix and the name can both be read back.
   */
  function Prefixed(prefix: string, name: string): (r: string)
    ensures |r| == |prefix| + 1 + |name|
    ensures r[..|prefix| + 1] == prefix + "_" && r[|prefix| + 1..] == name
  {
    prefix + "_" + name
  }

  /** A property read `value.name`: undefined unless the value is an object holding it. */
  function Property(value: Value, name: string): (r: Value)
    ensures value.Dict? && name in value.fields ==> r == value.fields[name]
    ensures !(value.Dict? && name in value.fields) && !value.Err? ==> r == Undefined
  {
    match value
    case Dict(fields) => if name in fields then fields[name] else Undefined
    case Err(e) => if name == "message" then Str(e.message) else if name == "stack" then Str(e.stack) else Undefined
    case _ => Undefined
  }

  /** The log fields the adapters write for a captured error: the error and its message and stack. */
  function ErrorFields(err: Value): (f: map<string, Value>)
    ensures f.Keys == {"event", "error.object", "message", "stack"}
    ensures f["event"] == Str("error") && f["error.object"] == err
    ensures err.Err? ==> f["message"] == Str(err.error.message) && f["stack"] == Str(err.error.stack)
  {
    map["event" := Str("error"), "error.object" := err,
        "message" := Property(err, "message"), "stack" := Property(err, "stack")]
  }

  /**
   * A tracer handle. `header` is the carrier key its `inject` writes; `ns` is the
   * namespace key the facade attaches to it (None while it has none).
   */
  class Tracer {
    const id: nat
    const header: string
    var ns: Option<Symbol>

    constructor (id: nat, header: string)
      ensures this.id == id && this.header == header && ns == None
    {
      this.id := id;
      this.header := header;
      ns := None;
    }
  }

  /**
   * `tracer.extract(FORMAT_HTTP_HEADERS, carrier)`: the span context under the
   * tracer's header, or null (Undefined) when there is none.
   */
  function Extract(tracer: Tracer, carrier: Option<map<string, Value>>): (r: Value)
    ensures r.Undefined? || r.Ctx?
    ensures carrier.Some? && tracer.header in carrier.value && carrier.value[tracer.header].Span?
      ==> r == Ctx(ContextOf(carrier.value[tracer.header].id))
    ensures carrier.None? || tracer.header !in carrier.value ==> r == Undefined
  {
    if carrier.None? || tracer.header !in carrier.value then Undefined
    else match carrier.value[tracer.header]
      case Span(id) => Ctx(ContextOf(id))
      case Ctx(c) => Ctx(c)
      case _ => Undefined
  }

  /** One observable call. */
  datatype Call =
    | StartSpan(tracer: nat, span: SpanId, name: string, childOf: Value, tags: map<string, Value>)
    | SetTag(span: SpanId, key: string, value: Value)
    | Log(span: SpanId, fields: map<string, Value>)
    | Finish(span: SpanId)
    | Inject(tracer: nat, injected: Value)
    | Invoke(target: string, args: seq<Value>)

  /** What `spans.forEach(...)` does to each span. */
  datatype SpanOp = TagOp(key: string, value: Value) | LogOp(fields: map<string, Value>) | FinishOp

  function Apply(op: SpanOp, s: SpanId): Call {
    match op
    case TagOp(k, v) => SetTag(s, k, v)
    case LogOp(f) => Log(s, f)
    case FinishOp => Finish(s)
  }

  /** The calls `spans.forEach(op)` makes: one per span, in order. */
  function OpCalls(spans: seq<SpanId>, op: SpanOp): (r: seq<Call>)
    ensures |r| == |spans|
  {
    if spans == [] then [] else OpCalls(spans[..|spans| - 1], op) + [Apply(op, spans[|spans| - 1])]
  }

  /** Regrouping a journal's appended parts, for the steps the solver does not take by itself. */
  lemma Regroup(journal: seq<Call>, a: seq<Call>, b: seq<Call>, c: seq<Call>)
    ensures journal + a + (b + c) == journal + (a + b + c)
    ensures journal + a + b + c == journal + (a + b + c)
  {
  }

  lemma Assoc(a: seq<Call>, b: seq<Call>, c: seq<Call>)
    ensures a + b + c == a + (b + c)
  {
  }

  /** The i-th call of `spans.forEach(op)` is the operation on the i-th span. */
  lemma {:induction false} OpCallsAt(spans: seq<SpanId>, op: SpanOp, i: nat)
    requires i < |spans|
    ensures OpCalls(spans, op)[i] == Apply(op, spans[i])
  {
    var n := |spans| - 1;
    if i < n {
      OpCallsAt(spans[..n], op, i);
    }
  }

  /** A call belongs to `spans.forEach(op)` exactly when it is that operation on one of the spans. */
  lemma {:induction false} InOpCalls(spans: seq<SpanId>, op: SpanOp, c: Call)
    ensures c in OpCalls(spans, op) <==> (c.SetTag? || c.Log? || c.Finish?) && c.span in spans && c == Apply(op, c.span)
  {
    if spans != [] {
      var n := |spans| - 1;
      InOpCalls(spans[..n], op, c);
      assert spans == spans[..n] + [spans[n]];
    }
  }

  /** The calls `spans.forEach(op)` makes on one span: exactly the operation, when the span is in the list. */
  lemma SpanCallsIn(spans: seq<SpanId>, op: SpanOp, s: SpanId)
    ensures forall k, v :: SetTag(s, k, v) in OpCalls(spans, op) <==> s in spans && op == TagOp(k, v)
    ensures forall f :: Log(s, f) in OpCalls(spans, op) <==> s in spans && op == LogOp(f)
    ensures Finish(s) in OpCalls(spans, op) <==> s in spans && op == FinishOp
  {
    forall k, v ensures SetTag(s, k, v) in OpCalls(spans, op) <==> s in spans && op == TagOp(k, v) {
      InOpCalls(spans, op, SetTag(s, k, v));
    }
    forall f ensures Log(s, f) in OpCalls(spans, op) <==> s in spans && op == LogOp(f) {
      InOpCalls(spans, op, Log(s, f));
    }
    InOpCalls(spans, op, Finish(s));
  }

  /** The spans `base`, `base + 1`, ..., `base + n - 1`, as a loop over n tracers creates them. */
  function Consecutive(base: SpanId, n: nat): (r: seq<SpanId>)
    ensures |r| == n
  {
    if n == 0 then [] else Consecutive(base, n - 1) + [base + n - 1]
  }

  /** The i-th of n spans handed out from `base` is `base + i`, so they are all different. */
  lemma {:induction false} ConsecutiveSpans(base: SpanId, n: nat)
    ensures forall i :: 0 <= i < n ==> Consecutive(base, n)[i] == base + i
    ensures Distinct(Consecutive(base, n))
  {
    if n > 0 {
      ConsecutiveSpans(base, n - 1);
    }
  }

  /** A span belongs to the n spans handed out from `base` exactly when it lies in that range. */
  lemma ConsecutiveMember(base: SpanId, n: nat, s: SpanId)
    ensures s in Consecutive(base, n) <==> base <= s < base + n
  {
    ConsecutiveSpans(base, n);
    if base <= s < base + n {
      assert Consecutive(base, n)[s - base] == s;
    }
  }

  predicate Distinct(spans: seq<SpanId>) {
    forall i, j :: 0 <= i < j < |spans| ==> spans[i] != spans[j]
  }

  /** Finishing every span of a duplicate-free list finishes each of them exactly once. */
  lemma {:induction false} FinishEachOnce(spans: seq<SpanId>, s: SpanId)
    requires Distinct(spans)
    ensures multiset(OpCalls(spans, FinishOp))[Finish(s)] == if s in spans then 1 else 0
  {
    if spans != [] {
      var init, last := spans[..|spans| - 1], spans[|spans| - 1];
      assert Distinct(init);
      FinishEachOnce(init, s);
      assert last !in init by {
        forall i | 0 <= i < |init| ensures init[i] != last {
          assert spans[i] != spans[|spans| - 1];
        }
      }
      assert spans == init + [last];
      assert OpCalls(spans, FinishOp) == OpCalls(init, FinishOp) + [Finish(last)];
      assert multiset(OpCalls(spans, FinishOp))
          == multiset(OpCalls(init, FinishOp)) + multiset{Finish(last)};
    }
  }

  /** Tagging or logging never finishes a span. */
  lemma {:induction false} NoFinishIn(spans: seq<SpanId>, op: SpanOp, s: SpanId)
    requires !op.FinishOp?
    ensures multiset(OpCalls(spans, op))[Finish(s)] == 0
  {
    if spans != [] {
      NoFinishIn(spans[..|spans| - 1], op, s);
    }
  }

  /** The journal of the tracing backend and of the instrumented program's own functions. */
  class Recorder {
    var calls: seq<Call>
    var nextSpan: SpanId

    constructor ()
      ensures calls == [] && nextSpan == 0
    {
      calls := [];
      nextSpan := 0;
    }

    /** `tracer.startSpan(name, { childOf, tags })`: a new span, never seen before. */
    method StartSpan(tracer: Tracer, name: string, childOf: Value, tags: map<string, Value>)
      returns (s: SpanId)
      modifies this
      ensures s == old(nextSpan) && nextSpan == s + 1
      ensures calls == old(calls) + [Call.StartSpan(tracer.id, s, name, childOf, tags)]
    {
      s := nextSpan;
      nextSpan := nextSpan + 1;
      calls := calls + [Call.StartSpan(tracer.id, s, name, childOf, tags)];
    }

    /** `span.setTag`, `span.log` or `span.finish` on one span. */
    method Do(op: SpanOp, s: SpanId)
      modifies this
      ensures nextSpan == old(nextSpan)
      ensures calls == old(calls) + [Apply(op, s)]
    {
      calls := calls + [Apply(op, s)];
    }

    /** `spans.forEach((span) => span.op(...))`. */
    method ForEach(spans: seq<SpanId>, op: SpanOp)
      modifies this
      ensures nextSpan == old(nextSpan)
      ensures calls == old(calls) + OpCalls(spans, op)
    {
      var i := 0;
      while i < |spans|
        invariant 0 <= i <= |spans|
        invariant nextSpan == old(nextSpan)
        invariant calls == old(calls) + OpCalls(spans[..i], op)
      {
        assert spans[..i + 1][..i] == spans[..i];
        calls := calls + [Apply(op, spans[i])];
        i := i + 1;
      }
      assert spans[..i] == spans;
    }

    /** `tracer.inject(span, FORMAT_HTTP_HEADERS, carrier)`: writes the tracer's header. */
    method Inject(tracer: Tracer, span: Value, carrier: map<string, Value>)
      returns (carrier': map<string, Value>)
      modifies this
      ensures nextSpan == old(nextSpan)
      ensures carrier' == carrier[tracer.header := span]
      ensures calls == old(calls) + [Call.Inject(tracer.id, span)]
    {
      calls := calls + [Call.Inject(tracer.id, span)];
      carrier' := carrier[tracer.header := span];
    }

    /** A call into the instrumented program's own code (an original method or a user callback). */
    method Invoke(target: string, args: seq<Value>)
      modifies this
      ensures nextSpan == old(nextSpan)
      ensures calls == old(calls) + [Call.Invoke(target, args)]
    {
      calls := calls + [Call.Invoke(target, args)];
    }
  }
}
