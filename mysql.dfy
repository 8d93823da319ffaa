/**
 * The mysql adapter (src/instrumentation/mysql.js): `createQuery` of the
 * library's Connection module is wrapped so that every query object gets one
 * child span per tracer and the 'error' and 'end' listeners of the Events
 * module. The Connection module is loaded once and kept for unpatch.
 */
module Mysql {
  import opened Wrappers
  import opened Tracing
  import opened Cls
  import opened Lifecycle
  import opened Events
  import Shim

  const NAME := "mysql"
  const MYSQL_DB_TYPE := "mysql"
  const OPERATION_NAME := "mysql"
  const CREATE_QUERY := "createQuery"
  const PATCHED: seq<string> := [CREATE_QUERY]

  /** `${OPERATION_NAME}_query`. */
  const SPAN_NAME := OPERATION_NAME + "_query"

  function QueryTags(statement: Value): Slot {
    map[SPAN_KIND := Str(SPAN_KIND_RPC_CLIENT), DB_TYPE := Str(MYSQL_DB_TYPE), DB_STATEMENT := statement]
  }

  /**
   * `createQueryWrapped(sql, values, cb)`: the original runs first and returns
   * `query`; then one child span per tracer is started, tagged with the query's
   * own SQL, the two listeners are added and the same query is returned.
   */
  method CreateQueryWrapped(store: ContextStore, tracers: seq<Tracer>, sql: Value, values: Value, cb: Value,
                            query: Query, rec: Recorder)
    returns (spans: seq<SpanId>, result: Query)
    requires store.Valid()
    modifies query, rec
    ensures result == query
    ensures spans == Consecutive(old(rec.nextSpan), |tracers|)
    ensures rec.nextSpan == old(rec.nextSpan) + |tracers|
    ensures query.listeners == old(query.listeners) + QueryListeners(spans)
    ensures rec.calls == old(rec.calls) + [Invoke(CREATE_QUERY, [sql, values, cb])]
      + ChildStarts(store.context, tracers, SPAN_NAME, QueryTags(query.sql), old(rec.nextSpan))
  {
    rec.Invoke(CREATE_QUERY, [sql, values, cb]);
    spans := StartChildSpans(store, tracers, SPAN_NAME, QueryTags(query.sql), rec);
    query.Listen(spans);
    result := query;
  }

  /** The adapter's module-level state: the Connection module, once loaded. */
  class Adapter {
    var connection: Option<Shim.Target>

    constructor ()
      ensures connection == None
    {
      connection := None;
    }

    /** `Connection = Connection || require(...)`, then the wrap of `createQuery`. */
    method Patch(required: Shim.Target)
      modifies this, required, if connection.Some? then {connection.value} else {}
      ensures connection == if old(connection).Some? then old(connection) else Some(required)
      ensures var loaded := connection.value; loaded.slots == Shim.WrapSlot(old(loaded.slots), CREATE_QUERY, NAME)
    {
      if connection.None? {
        connection := Some(required);
      }
      connection.value.Wrap(CREATE_QUERY, NAME);
    }

    /** `unpatch`: only when the Connection module was loaded. */
    method Unpatch()
      modifies if connection.Some? then {connection.value} else {}
      ensures connection.Some? ==> connection.value.slots == Shim.UnwrapSlot(old(connection.value.slots), CREATE_QUERY)
    {
      if connection.Some? {
        connection.value.Unwrap(CREATE_QUERY);
      }
    }
  }
}
