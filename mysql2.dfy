/**
 * The mysql2 adapter (src/instrumentation/mysql2.js): `query` of the
 * Connection prototype is wrapped so that every query gets one child span per
 * tracer, the 'error' and 'end' listeners of the Events module, and, span by
 * span, the tags describing the connection.
 */
module Mysql2 {
  import opened Wrappers
  import opened Tracing
  import opened Cls
  import opened Lifecycle
  import opened Events
  import Shim

  const NAME := "mysql2"
  const MYSQL_DB_TYPE := "mysql"
  const OPERATION_NAME := "mysql2"
  const QUERY := "query"
  const PATCHED: seq<string> := [QUERY]
  const SERVICE_NAME := "service.name"
  const MYSQL_HOST := "mysql.host"
  const MYSQL_PORT := "mysql.port"
  const MYSQL_USER := "mysql.user"
  const MYSQL_DB := "mysql.db"

  /** `${OPERATION_NAME}_query`. */
  const SPAN_NAME := OPERATION_NAME + "_query"

  const QUERY_TAGS: Slot := map[SPAN_KIND := Str(SPAN_KIND_RPC_CLIENT), DB_TYPE := Str(MYSQL_DB_TYPE)]

  /** The connection's `this.config`, as far as the adapter reads it. */
  datatype Config = Config(host: Value, port: Value, user: Value, database: Value)

  /** The tags one span gets, in order: the database one only for a truthy database name. */
  function SpanTags(s: SpanId, statement: Value, config: Config): seq<Call> {
    [SetTag(s, SERVICE_NAME, Str(MYSQL_DB_TYPE)), SetTag(s, DB_STATEMENT, statement),
     SetTag(s, MYSQL_HOST, config.host), SetTag(s, MYSQL_PORT, Str(JsString(config.port))),
     SetTag(s, MYSQL_USER, config.user)]
    + (if Truthy(config.database) then [SetTag(s, MYSQL_DB, config.database)] else [])
  }

  /** `spans.forEach((span) => { ...tags... })`: all tags of one span before the next span's. */
  function ConfigTagCalls(spans: seq<SpanId>, statement: Value, config: Config): seq<Call> {
    if spans == [] then []
    else ConfigTagCalls(spans[..|spans| - 1], statement, config) + SpanTags(spans[|spans| - 1], statement, config)
  }

  /**
   * Every span of the query, and no other, is tagged with the port as a
   * string; and it is tagged with the database name exactly when that name is
   * truthy.
   */
  lemma {:induction false} ConnectionTagged(spans: seq<SpanId>, statement: Value, config: Config, s: SpanId)
    ensures SetTag(s, MYSQL_PORT, Str(JsString(config.port))) in ConfigTagCalls(spans, statement, config) <==> s in spans
    ensures SetTag(s, MYSQL_DB, config.database) in ConfigTagCalls(spans, statement, config)
      <==> s in spans && Truthy(config.database)
  {
    if spans != [] {
      var n := |spans| - 1;
      ConnectionTagged(spans[..n], statement, config, s);
      SpanTagsOf(spans[n], statement, config, s);
      assert s in spans <==> s in spans[..n] || s == spans[n];
    }
  }

  lemma SpanTagsOf(t: SpanId, statement: Value, config: Config, s: SpanId)
    ensures SetTag(s, MYSQL_PORT, Str(JsString(config.port))) in SpanTags(t, statement, config) <==> s == t
    ensures SetTag(s, MYSQL_DB, config.database) in SpanTags(t, statement, config) <==> s == t && Truthy(config.database)
  {
    var tags := SpanTags(t, statement, config);
    assert tags[3] == SetTag(t, MYSQL_PORT, Str(JsString(config.port)));
    if Truthy(config.database) {
      assert tags[5] == SetTag(t, MYSQL_DB, config.database);
    }
  }

  lemma TagStep(journal: seq<Call>, spans: seq<SpanId>, statement: Value, config: Config, i: nat)
    requires i < |spans|
    ensures journal + ConfigTagCalls(spans[..i + 1], statement, config)
      == journal + ConfigTagCalls(spans[..i], statement, config) + SpanTags(spans[i], statement, config)
  {
    assert spans[..i + 1][..i] == spans[..i];
  }

  /** The tags of one span. */
  method TagSpan(s: SpanId, statement: Value, config: Config, rec: Recorder)
    modifies rec
    ensures rec.nextSpan == old(rec.nextSpan)
    ensures rec.calls == old(rec.calls) + SpanTags(s, statement, config)
  {
    rec.Do(TagOp(SERVICE_NAME, Str(MYSQL_DB_TYPE)), s);
    rec.Do(TagOp(DB_STATEMENT, statement), s);
    rec.Do(TagOp(MYSQL_HOST, config.host), s);
    rec.Do(TagOp(MYSQL_PORT, Str(JsString(config.port))), s);
    rec.Do(TagOp(MYSQL_USER, config.user), s);
    if Truthy(config.database) {
      rec.Do(TagOp(MYSQL_DB, config.database), s);
    }
  }

  /** `spans.forEach((span) => { ...tags... })`. */
  method TagEach(spans: seq<SpanId>, statement: Value, config: Config, rec: Recorder)
    modifies rec
    ensures rec.nextSpan == old(rec.nextSpan)
    ensures rec.calls == old(rec.calls) + ConfigTagCalls(spans, statement, config)
  {
    ghost var journal := rec.calls;
    var i := 0;
    while i < |spans|
      invariant 0 <= i <= |spans|
      invariant rec.nextSpan == old(rec.nextSpan)
      invariant rec.calls == journal + ConfigTagCalls(spans[..i], statement, config)
    {
      TagStep(journal, spans, statement, config, i);
      TagSpan(spans[i], statement, config, rec);
      i := i + 1;
    }
    assert spans[..i] == spans;
  }

  /**
   * `queryWithTrace(sql, values, cb)`: the spans come first, tagged with kind
   * and type; then the original runs once and returns `sequence`, which gets
   * the two listeners; then each span gets its connection tags, and the same
   * sequence is returned.
   */
  method QueryWithTrace(store: ContextStore, tracers: seq<Tracer>, config: Config, sql: Value, values: Value, cb: Value,
                        sequence: Query, rec: Recorder)
    returns (spans: seq<SpanId>, result: Query)
    requires store.Valid()
    modifies sequence, rec
    ensures result == sequence
    ensures spans == Consecutive(old(rec.nextSpan), |tracers|)
    ensures rec.nextSpan == old(rec.nextSpan) + |tracers|
    ensures sequence.listeners == old(sequence.listeners) + QueryListeners(spans)
    ensures rec.calls == old(rec.calls)
      + ChildStarts(store.context, tracers, SPAN_NAME, QUERY_TAGS, old(rec.nextSpan))
      + [Invoke(QUERY, [sql, values, cb])]
      + ConfigTagCalls(spans, sequence.sql, config)
  {
    spans := StartChildSpans(store, tracers, SPAN_NAME, QUERY_TAGS, rec);
    rec.Invoke(QUERY, [sql, values, cb]);
    sequence.Listen(spans);
    TagEach(spans, sequence.sql, config, rec);
    result := sequence;
  }

  /** `patchConnection(Connection)`. */
  method Patch(connection: Shim.Target)
    modifies connection
    ensures connection.slots == Shim.WrapSlots(old(connection.slots), PATCHED, NAME)
  {
    connection.WrapEach(PATCHED, NAME);
  }

  /** `unpatchConnection(Connection)`: nothing to do without a Connection. */
  method Unpatch(connection: Option<Shim.Target>)
    modifies if connection.Some? then {connection.value} else {}
    ensures connection.Some? ==> connection.value.slots == Shim.UnwrapSlots(old(connection.value.slots), PATCHED)
  {
    if connection.Some? {
      connection.value.UnwrapEach(PATCHED);
    }
  }
}
