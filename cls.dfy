/**
 * The span context store of src/cls.js: one explicit context that maps each
 * tracer's namespace key to that tracer's slot of fields, the slot's
 * `currentSpan` being the root span of the request, and the helpers that start
 * root and child spans through it.
 */
module Cls {
  import opened Wrappers
  import opened Tracing

  /** A tracer's slot: the fields merged into it by `assign`. */
  type Slot = map<string, Value>
  /** The context: a slot per namespace key (None stands for an undefined key). */
  type Context = map<Option<Symbol>, Slot>

  const CURRENT_SPAN := "currentSpan"
  /** The process-wide root context before any request. */
  const DEFAULT_CONTEXT: Context := map[]

  const TRACER_REQUIRED := "tracer is required"
  const OPERATION_NAME_REQUIRED := "operationName is required"
  /** The TypeError thrown when `currentSpan` holds something that is not a span. */
  const NOT_A_SPAN := "parentSpan.context is not a function"

  /** `currentContext[ns] || {}`. */
  function SlotOf(context: Context, ns: Option<Symbol>): Slot {
    if ns in context then context[ns] else map[]
  }

  /**
   * The context after `assign(tracer, fields)`: the fields are merged into the
   * tracer's slot, later keys overwriting, and every other slot is left as it was.
   */
  function Assigned(context: Context, ns: Option<Symbol>, fields: Slot): Context {
    context[ns := SlotOf(context, ns) + fields]
  }

  /**
   * `assign` merges: the tracer's slot gains the fields, later keys
   * overwriting, keeps its other fields, and every other slot is untouched.
   */
  lemma AssignedMerges(context: Context, ns: Option<Symbol>, fields: Slot)
    ensures Assigned(context, ns, fields).Keys == context.Keys + {ns}
    ensures SlotOf(Assigned(context, ns, fields), ns).Keys == SlotOf(context, ns).Keys + fields.Keys
    ensures forall k :: k in fields ==> SlotOf(Assigned(context, ns, fields), ns)[k] == fields[k]
    ensures forall k :: k in SlotOf(context, ns) && k !in fields ==>
      SlotOf(Assigned(context, ns, fields), ns)[k] == SlotOf(context, ns)[k]
    ensures forall other :: other != ns ==> SlotOf(Assigned(context, ns, fields), other) == SlotOf(context, other)
  {
  }

  /** `tracerContext.currentSpan`, undefined when the slot or the field is missing. */
  function CurrentSpan(context: Context, ns: Option<Symbol>): (v: Value)
    ensures ns !in context ==> v == Undefined
    ensures ns in context && CURRENT_SPAN in context[ns] ==> v == context[ns][CURRENT_SPAN]
  {
    var slot := SlotOf(context, ns);
    if CURRENT_SPAN in slot then slot[CURRENT_SPAN] else Undefined
  }

  /** `parentSpan ? parentSpan.context() : undefined`; calling `context()` on a non-span throws. */
  function ParentContext(parent: Value): (r: Result<Value, string>)
    ensures r == Success(Undefined) <==> !Truthy(parent)
    ensures parent.Span? ==> r == Success(Ctx(ContextOf(parent.id)))
    ensures r.Failure? <==> Truthy(parent) && !parent.Span?
  {
    if !Truthy(parent) then Success(Undefined)
    else if parent.Span? then Success(Ctx(ContextOf(parent.id)))
    else Failure(NOT_A_SPAN)
  }

  /** The `childOf` a child span gets: the context of the tracer's current span, if there is one. */
  function ChildParent(context: Context, ns: Option<Symbol>): (r: Value)
    ensures HoldsSpans(context) ==> ParentContext(CurrentSpan(context, ns)) == Success(r)
  {
    match CurrentSpan(context, ns)
    case Span(id) => Ctx(ContextOf(id))
    case _ => Undefined
  }

  /** Every recorded `currentSpan` is a span (or falsy), so starting a child span cannot throw. */
  predicate HoldsSpans(context: Context) {
    forall ns :: ns in context && CURRENT_SPAN in context[ns] ==>
      context[ns][CURRENT_SPAN].Span? || !Truthy(context[ns][CURRENT_SPAN])
  }

  /** After a root span is assigned, the tracer's current span is that span. */
  lemma RootSpanRecorded(context: Context, ns: Option<Symbol>, s: SpanId)
    ensures CurrentSpan(Assigned(context, ns, map[CURRENT_SPAN := Span(s)]), ns) == Span(s)
    ensures HoldsSpans(context) ==> HoldsSpans(Assigned(context, ns, map[CURRENT_SPAN := Span(s)]))
  {
  }

  class ContextStore {
    var context: Context

    /** The store starts from a copy of the default (empty) root context. */
    constructor ()
      ensures context == DEFAULT_CONTEXT
    {
      context := DEFAULT_CONTEXT;
    }

    predicate Valid()
      reads this
    {
      HoldsSpans(context)
    }

    /** `assign(tracer, fields)`: merges the fields into this tracer's slot only. */
    method Assign(tracer: Tracer, fields: Slot)
      modifies this
      ensures context == Assigned(old(context), tracer.ns, fields)
    {
      context := context[tracer.ns := SlotOf(context, tracer.ns) + fields];
    }

    /** `getRootSpan(tracer)`: throws without a tracer, else the slot's current span. */
    function GetRootSpan(tracer: Option<Tracer>): (r: Result<Value, string>)
      reads this, if tracer.Some? then {tracer.value} else {}
      ensures r.Failure? <==> tracer.None?
      ensures r.Failure? ==> r.error == TRACER_REQUIRED
      ensures tracer.Some? && tracer.value.ns !in context ==> r == Success(Undefined)
      ensures tracer.Some? ==> r.value == CurrentSpan(context, tracer.value.ns)
    {
      if tracer.None? then Failure(TRACER_REQUIRED)
      else Success(CurrentSpan(context, tracer.value.ns))
    }

    /**
     * `startRootSpan(tracer, operationName, parent)`: starts one span with
     * `childOf: parent`, records it as the tracer's `currentSpan` and returns it.
     * It always starts a new span, even when one is recorded already.
     */
    method StartRootSpan(tracer: Option<Tracer>, operationName: string, parent: Value, rec: Recorder)
      returns (r: Result<SpanId, string>)
      modifies this, rec
      ensures tracer.None? ==> r == Failure(TRACER_REQUIRED)
      ensures tracer.Some? && operationName == "" ==> r == Failure(OPERATION_NAME_REQUIRED)
      ensures r.Failure? ==>
        context == old(context) && rec.calls == old(rec.calls) && rec.nextSpan == old(rec.nextSpan)
      ensures r.Success? ==>
        && tracer.Some? && operationName != ""
        && r.value == old(rec.nextSpan) && rec.nextSpan == r.value + 1
        && rec.calls == old(rec.calls) + [StartSpan(tracer.value.id, r.value, operationName, parent, map[])]
        && context == Assigned(old(context), tracer.value.ns, map[CURRENT_SPAN := Span(r.value)])
      ensures r.Success? <==> tracer.Some? && operationName != ""
      ensures r.Success? ==> GetRootSpan(tracer) == Success(Span(r.value))
      ensures old(Valid()) ==> Valid()
    {
      r := StartRoot(tracer, operationName, parent, map[], rec);
    }

    /**
     * `startRootSpan` handing the caller's tags to `startSpan` as well, which
     * is what the koa and mali adapters expect when they pass `{ childOf, tags }`.
     */
    method StartRootSpanWithTags(tracer: Option<Tracer>, operationName: string, parent: Value, tags: Slot, rec: Recorder)
      returns (r: Result<SpanId, string>)
      modifies this, rec
      ensures tracer.None? ==> r == Failure(TRACER_REQUIRED)
      ensures tracer.Some? && operationName == "" ==> r == Failure(OPERATION_NAME_REQUIRED)
      ensures r.Failure? ==>
        context == old(context) && rec.calls == old(rec.calls) && rec.nextSpan == old(rec.nextSpan)
      ensures r.Success? ==>
        && tracer.Some? && operationName != ""
        && r.value == old(rec.nextSpan) && rec.nextSpan == r.value + 1
        && rec.calls == old(rec.calls) + [StartSpan(tracer.value.id, r.value, operationName, parent, tags)]
        && context == Assigned(old(context), tracer.value.ns, map[CURRENT_SPAN := Span(r.value)])
      ensures r.Success? <==> tracer.Some? && operationName != ""
      ensures r.Success? ==> GetRootSpan(tracer) == Success(Span(r.value))
      ensures old(Valid()) ==> Valid()
    {
      r := StartRoot(tracer, operationName, parent, tags, rec);
    }

    method StartRoot(tracer: Option<Tracer>, operationName: string, parent: Value, tags: Slot, rec: Recorder)
      returns (r: Result<SpanId, string>)
      modifies this, rec
      ensures r.Success? <==> tracer.Some? && operationName != ""
      ensures tracer.None? ==> r == Failure(TRACER_REQUIRED)
      ensures tracer.Some? && operationName == "" ==> r == Failure(OPERATION_NAME_REQUIRED)
      ensures r.Failure? ==>
        context == old(context) && rec.calls == old(rec.calls) && rec.nextSpan == old(rec.nextSpan)
      ensures r.Success? ==>
        && r.value == old(rec.nextSpan) && rec.nextSpan == r.value + 1
        && rec.calls == old(rec.calls) + [StartSpan(tracer.value.id, r.value, operationName, parent, tags)]
        && context == Assigned(old(context), tracer.value.ns, map[CURRENT_SPAN := Span(r.value)])
      ensures r.Success? ==> GetRootSpan(tracer) == Success(Span(r.value))
      ensures old(Valid()) ==> Valid()
    {
      if tracer.None? {
        return Failure(TRACER_REQUIRED);
      }
      if operationName == "" {
        return Failure(OPERATION_NAME_REQUIRED);
      }
      var span := rec.StartSpan(tracer.value, operationName, parent, tags);
      Assign(tracer.value, map[CURRENT_SPAN := Span(span)]);
      RootSpanRecorded(old(context), tracer.value.ns, span);
      r := Success(span);
    }

    /**
     * `startChildSpan(tracer, operationName, options)` as src/cls.js declares it:
     * with two parameters, so the options (the tags) its callers pass are dropped.
     */
    method StartChildSpan(tracer: Option<Tracer>, operationName: string, options: Slot, rec: Recorder)
      returns (r: Result<SpanId, string>)
      modifies rec
      ensures tracer.None? ==> r == Failure(TRACER_REQUIRED)
      ensures tracer.Some? && operationName == "" ==> r == Failure(OPERATION_NAME_REQUIRED)
      ensures r.Failure? ==> rec.calls == old(rec.calls) && rec.nextSpan == old(rec.nextSpan)
      ensures tracer.Some? && operationName != "" ==>
        match ParentContext(CurrentSpan(context, tracer.value.ns))
        case Failure(e) => r == Failure(e)
        case Success(p) =>
          && r == Success(old(rec.nextSpan)) && rec.nextSpan == r.value + 1
          && rec.calls == old(rec.calls) + [StartSpan(tracer.value.id, r.value, operationName, p, map[])]
    {
      r := StartChild(tracer, operationName, map[], rec);
    }

    /**
     * `startChildSpan` passing the caller's tags on to `startSpan`, as every
     * adapter that supplies tags expects; the adapters of this model use it.
     * The child is linked to the current span's context and the context is not written.
     */
    method StartChildSpanWithTags(tracer: Option<Tracer>, operationName: string, tags: Slot, rec: Recorder)
      returns (r: Result<SpanId, string>)
      modifies rec
      ensures tracer.None? ==> r == Failure(TRACER_REQUIRED)
      ensures tracer.Some? && operationName == "" ==> r == Failure(OPERATION_NAME_REQUIRED)
      ensures r.Failure? ==> rec.calls == old(rec.calls) && rec.nextSpan == old(rec.nextSpan)
      ensures tracer.Some? && operationName != "" ==>
        match ParentContext(CurrentSpan(context, tracer.value.ns))
        case Failure(e) => r == Failure(e)
        case Success(p) =>
          && r == Success(old(rec.nextSpan)) && rec.nextSpan == r.value + 1
          && rec.calls == old(rec.calls) + [StartSpan(tracer.value.id, r.value, operationName, p, tags)]
      ensures tracer.Some? && operationName != "" && Valid() ==>
        && r == Success(old(rec.nextSpan)) && rec.nextSpan == r.value + 1
        && rec.calls == old(rec.calls) + [StartSpan(tracer.value.id, r.value, operationName, ChildParent(context, tracer.value.ns), tags)]
    {
      r := StartChild(tracer, operationName, tags, rec);
    }

    method StartChild(tracer: Option<Tracer>, operationName: string, tags: Slot, rec: Recorder)
      returns (r: Result<SpanId, string>)
      modifies rec
      ensures tracer.None? ==> r == Failure(TRACER_REQUIRED)
      ensures tracer.Some? && operationName == "" ==> r == Failure(OPERATION_NAME_REQUIRED)
      ensures r.Failure? ==> rec.calls == old(rec.calls) && rec.nextSpan == old(rec.nextSpan)
      ensures tracer.Some? && operationName != "" ==>
        match ParentContext(CurrentSpan(context, tracer.value.ns))
        case Failure(e) => r == Failure(e)
        case Success(p) =>
          && r == Success(old(rec.nextSpan)) && rec.nextSpan == r.value + 1
          && rec.calls == old(rec.calls) + [StartSpan(tracer.value.id, r.value, operationName, p, tags)]
    {
      if tracer.None? {
        return Failure(TRACER_REQUIRED);
      }
      if operationName == "" {
        return Failure(OPERATION_NAME_REQUIRED);
      }
      var root := GetRootSpan(tracer);
      var parent := ParentContext(root.value);
      if parent.Failure? {
        return Failure(parent.error);
      }
      var span := rec.StartSpan(tracer.value, operationName, parent.value, tags);
      r := Success(span);
    }
  }

  /**
   * The tags an adapter hands to src/cls.js's `startChildSpan` never reach the
   * tracer: the span is started with no tags at all.
   */
  method DroppedTagsExample() returns (requested: Slot, started: Slot)
    ensures requested == map[DB_TYPE := Str("redis")]
    ensures started == map[]
  {
    var rec := new Recorder();
    var store := new ContextStore();
    var tracer := new Tracer(0, "uber-trace-id");
    requested := map[DB_TYPE := Str("redis")];
    var r := store.StartChildSpan(Some(tracer), "redis_set", requested, rec);
    assert ParentContext(CurrentSpan(store.context, tracer.ns)) == Success(Undefined);
    started := rec.calls[0].tags;
  }
}
