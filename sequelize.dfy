/**
 * The sequelize adapter (src/instrumentation/sequelize.js): `query` of the
 * Sequelize prototype is replaced by a function that opens one child span per
 * tracer, calls the original query and, when its promise settles, finishes the
 * spans, marking them as failed when it rejects.
 */
module Sequelize {
  import opened Tracing
  import opened Cls
  import opened Lifecycle
  import opened Server
  import Shim

  const NAME := "sequelize"
  const QUERY := "query"
  const OPERATION_NAME := "sql"
  /** `'sql' || OPERATION_NAME`, which is always 'sql'. */
  const SPAN_NAME := "sql"

  /** The tags each span asks for: the kind (server, as written), the dialect as the database type, and the statement. */
  function QueryTags(dialect: Value, sql: Value): Slot {
    map[SPAN_KIND := Str(SPAN_KIND_RPC_SERVER), DB_TYPE := dialect, DB_STATEMENT := sql]
  }

  /** The calls once the original query's promise settles: on a rejection the error tag and log first, then the finish. */
  function SettleCalls(spans: seq<SpanId>, outcome: Completion): seq<Call> {
    (if outcome.Abrupt? then OpCalls(spans, TagOp(ERROR, Bool(true))) + OpCalls(spans, LogOp(map["error" := outcome.error])) else [])
    + OpCalls(spans, FinishOp)
  }

  /**
   * However the query settles, each span is finished exactly once; it is
   * tagged as an error and logs the error exactly when the query rejected.
   */
  lemma SettleFinishesEach(spans: seq<SpanId>, outcome: Completion, s: SpanId)
    requires Distinct(spans)
    ensures multiset(SettleCalls(spans, outcome))[Finish(s)] == if s in spans then 1 else 0
    ensures SetTag(s, ERROR, Bool(true)) in SettleCalls(spans, outcome) <==> s in spans && outcome.Abrupt?
    ensures outcome.Abrupt? ==> (Log(s, map["error" := outcome.error]) in SettleCalls(spans, outcome) <==> s in spans)
  {
    FinishEachOnce(spans, s);
    SpanCallsIn(spans, FinishOp, s);
    if outcome.Abrupt? {
      var tags, logs := OpCalls(spans, TagOp(ERROR, Bool(true))), OpCalls(spans, LogOp(map["error" := outcome.error]));
      SpanCallsIn(spans, TagOp(ERROR, Bool(true)), s);
      SpanCallsIn(spans, LogOp(map["error" := outcome.error]), s);
      NoFinishIn(spans, TagOp(ERROR, Bool(true)), s);
      NoFinishIn(spans, LogOp(map["error" := outcome.error]), s);
      assert multiset(SettleCalls(spans, outcome)) == multiset(tags) + multiset(logs) + multiset(OpCalls(spans, FinishOp));
    }
  }

  method RecordSettle(spans: seq<SpanId>, outcome: Completion, rec: Recorder)
    modifies rec
    ensures rec.nextSpan == old(rec.nextSpan)
    ensures rec.calls == old(rec.calls) + SettleCalls(spans, outcome)
  {
    if outcome.Abrupt? {
      rec.ForEach(spans, TagOp(ERROR, Bool(true)));
      rec.ForEach(spans, LogOp(map["error" := outcome.error]));
    }
    rec.ForEach(spans, FinishOp);
  }

  /**
   * The replacement `query(sql, option)`. `dialect` is what `getDialect()`
   * returns and `outcome` how the original query's promise settles: the
   * result is passed on, the error thrown again.
   */
  method Query(store: ContextStore, tracers: seq<Tracer>, sql: Value, option: Value, dialect: Value, outcome: Completion, rec: Recorder)
    returns (spans: seq<SpanId>, result: Completion)
    requires store.Valid()
    modifies rec
    ensures spans == Consecutive(old(rec.nextSpan), |tracers|)
    ensures rec.nextSpan == old(rec.nextSpan) + |tracers|
    ensures result == outcome
    ensures rec.calls == old(rec.calls)
      + ChildStarts(store.context, tracers, SPAN_NAME, QueryTags(dialect, sql), old(rec.nextSpan))
      + [Invoke(QUERY, [sql, option])] + SettleCalls(spans, outcome)
  {
    spans := StartChildSpans(store, tracers, SPAN_NAME, QueryTags(dialect, sql), rec);
    rec.Invoke(QUERY, [sql, option]);
    RecordSettle(spans, outcome, rec);
    result := outcome;
  }

  /** `sequelize.prototype.query = query`: a plain assignment, not a shimmer wrap. */
  method Patch(proto: Shim.Target)
    modifies proto
    ensures proto.slots == Shim.ReplaceSlot(old(proto.slots), QUERY, NAME)
  {
    proto.Replace(QUERY, NAME);
  }
}
