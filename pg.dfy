/**
 * The pg adapter (src/instrumentation/pg.js): `query` of `Client.prototype` is
 * wrapped so that every query gets one child span per tracer, tagged with the
 * database type and the query text, and a callback that records the error or
 * the row count before finishing the spans.
 */
module Pg {
  import opened Tracing
  import opened Cls
  import opened Lifecycle
  import opened Callbacks
  import Shim

  const NAME := "pg"
  const PG_DB_TYPE := "postgresql"
  const OPERATION_NAME := "pg"
  const QUERY := "query"
  const PATCHED: seq<string> := [QUERY]

  /** `${OPERATION_NAME}_query`. */
  const SPAN_NAME := OPERATION_NAME + "_query"

  /** The query object the original `query` returns: its text and its callback. */
  class Query {
    const text: Value
    var callback: Callback

    constructor (text: Value, callback: Callback)
      ensures this.text == text && this.callback == callback
    {
      this.text := text;
      this.callback := callback;
    }
  }

  /** The tags each query span gets after the query was made: database type, then statement. */
  function QueryTags(spans: seq<SpanId>, text: Value): seq<Call> {
    OpCalls(spans, TagOp(DB_TYPE, Str(PG_DB_TYPE))) + OpCalls(spans, TagOp(DB_STATEMENT, text))
  }

  /**
   * `queryTrace(...args)`: the spans are started first (with no tags), then the
   * original is called once with the same arguments and returns `query`; every
   * span is tagged with the type and then every span with the statement, and
   * the query's callback is wrapped. The same query object is returned.
   */
  method QueryTrace(store: ContextStore, tracers: seq<Tracer>, args: seq<Value>, query: Query, rec: Recorder)
    returns (spans: seq<SpanId>, result: Query)
    requires store.Valid()
    modifies query, rec
    ensures result == query
    ensures spans == Consecutive(old(rec.nextSpan), |tracers|)
    ensures rec.nextSpan == old(rec.nextSpan) + |tracers|
    ensures query.callback == Traced(ErrorAndRows, spans, old(query.callback))
    ensures rec.calls == old(rec.calls)
      + ChildStarts(store.context, tracers, SPAN_NAME, map[], old(rec.nextSpan))
      + [Invoke(QUERY, args)]
      + QueryTags(spans, query.text)
  {
    spans := StartChildSpans(store, tracers, SPAN_NAME, map[], rec);
    rec.Invoke(QUERY, args);
    rec.ForEach(spans, TagOp(DB_TYPE, Str(PG_DB_TYPE)));
    rec.ForEach(spans, TagOp(DB_STATEMENT, query.text));
    query.callback := Traced(ErrorAndRows, spans, query.callback);
    result := query;
  }

  /** `shimmer.wrap(pg.Client.prototype, 'query', queryWrap)`. */
  method Patch(proto: Shim.Target)
    modifies proto
    ensures proto.slots == Shim.WrapSlots(old(proto.slots), PATCHED, NAME)
  {
    proto.WrapEach(PATCHED, NAME);
  }

  /** `shimmer.unwrap(pg.Client.prototype, 'query')`. */
  method Unpatch(proto: Shim.Target)
    modifies proto
    ensures proto.slots == Shim.UnwrapSlots(old(proto.slots), PATCHED)
  {
    proto.UnwrapEach(PATCHED);
  }
}
