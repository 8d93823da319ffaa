/**
 * The mongodb-core adapter (src/instrumentation/mongodbCore.js): the server
 * operations `command`, `insert`, `update` and `remove` and the cursor's `next`
 * are wrapped so that each call gets one child span per tracer and its
 * completion callback is put behind a wrapper that finishes those spans.
 * `JSON.stringify` is outside the model: it is the `json` parameter.
 */
module MongodbCore {
  import opened Tracing
  import opened Cls
  import opened Lifecycle
  import opened Callbacks
  import Shim

  const NAME := "mongodbCore"
  const MONGODB_DB_TYPE := "mongodb"
  const OPERATION_NAME := "mongodb"
  const NEXT := "next"
  /** The server operations that are wrapped, in the order they are patched. */
  const SERVER_OPERATIONS: seq<string> := ["command", "insert", "update", "remove"]
  const CURSOR_OPERATIONS: seq<string> := [NEXT]
  /** What the original receives in place of the caller's callback. */
  const WRAPPED_CALLBACK := Fn("wrapCallback")

  function OperationTags(statement: string, ns: Value): Slot {
    map[SPAN_KIND := Str(SPAN_KIND_RPC_CLIENT), DB_TYPE := Str(MONGODB_DB_TYPE),
        DB_STATEMENT := Str(statement), DB_INSTANCE := ns]
  }

  function CursorTags(statement: string): Slot {
    map[SPAN_KIND := Str(SPAN_KIND_RPC_CLIENT), DB_TYPE := Str(MONGODB_DB_TYPE), DB_STATEMENT := Str(statement)]
  }

  /**
   * How `mongoOperationTrace(ns, ops, options, callback)` calls the original:
   * when `options` is a function the call had no options, so the original gets
   * three arguments and the wrapped `options`; otherwise four, with the wrapped
   * `callback`. The second result is the callback that was wrapped.
   */
  function Forwarded(ns: Value, ops: Value, options: Value, callback: Value): (r: (seq<Value>, Value))
    ensures options.Fn? ==> r.0 == [ns, ops, WRAPPED_CALLBACK] && r.1 == options
    ensures !options.Fn? ==> r.0 == [ns, ops, options, WRAPPED_CALLBACK] && r.1 == callback
  {
    if options.Fn? then ([ns, ops, WRAPPED_CALLBACK], options) else ([ns, ops, options, WRAPPED_CALLBACK], callback)
  }

  /**
   * `mongoOperationTrace(ns, ops, options, callback)` for the server operation
   * `command`: one child span per tracer tagged with kind, type, the JSON of
   * `ops` and the namespace, then one call of the original, whose callback is
   * the wrapper (returned as `wrapper`) around the caller's. What the
   * original returns is returned.
   */
  method OperationTrace(store: ContextStore, tracers: seq<Tracer>, json: Value -> string, command: string,
                        ns: Value, ops: Value, options: Value, callback: Value, returnedByOriginal: Value, rec: Recorder)
    returns (returned: Value, spans: seq<SpanId>, wrapper: Callback)
    requires store.Valid()
    requires CallbackArg(Forwarded(ns, ops, options, callback).1)
    modifies rec
    ensures spans == Consecutive(old(rec.nextSpan), |tracers|)
    ensures rec.nextSpan == old(rec.nextSpan) + |tracers|
    ensures returned == returnedByOriginal
    ensures wrapper == Traced(ErrorOutcome, spans, CallbackOf(Forwarded(ns, ops, options, callback).1))
    ensures rec.calls == old(rec.calls)
      + ChildStarts(store.context, tracers, Prefixed(OPERATION_NAME, command), OperationTags(json(ops), ns), old(rec.nextSpan))
      + [Invoke(command, Forwarded(ns, ops, options, callback).0)]
  {
    spans := StartChildSpans(store, tracers, Prefixed(OPERATION_NAME, command), OperationTags(json(ops), ns), rec);
    if options.Fn? {
      wrapper := Traced(ErrorOutcome, spans, CallbackOf(options));
      rec.Invoke(command, [ns, ops, WRAPPED_CALLBACK]);
    } else {
      wrapper := Traced(ErrorOutcome, spans, CallbackOf(callback));
      rec.Invoke(command, [ns, ops, options, WRAPPED_CALLBACK]);
    }
    returned := returnedByOriginal;
  }

  /**
   * `nextTrace(cb)` on a cursor whose command is `cmd`: one child span per
   * tracer named `mongodb_cursor`, then one call of the original `next` with
   * the wrapper around `cb`, whose result is returned.
   */
  method NextTrace(store: ContextStore, tracers: seq<Tracer>, json: Value -> string, cmd: Value, cb: Value,
                   returnedByNext: Value, rec: Recorder)
    returns (returned: Value, spans: seq<SpanId>, wrapper: Callback)
    requires store.Valid() && CallbackArg(cb)
    modifies rec
    ensures spans == Consecutive(old(rec.nextSpan), |tracers|)
    ensures rec.nextSpan == old(rec.nextSpan) + |tracers|
    ensures returned == returnedByNext
    ensures wrapper == Traced(ErrorOutcome, spans, CallbackOf(cb))
    ensures rec.calls == old(rec.calls)
      + ChildStarts(store.context, tracers, Prefixed(OPERATION_NAME, "cursor"), CursorTags(json(cmd)), old(rec.nextSpan))
      + [Invoke(NEXT, [WRAPPED_CALLBACK])]
  {
    spans := StartChildSpans(store, tracers, Prefixed(OPERATION_NAME, "cursor"), CursorTags(json(cmd)), rec);
    wrapper := Traced(ErrorOutcome, spans, CallbackOf(cb));
    rec.Invoke(NEXT, [WRAPPED_CALLBACK]);
    returned := returnedByNext;
  }

  /** `patch`: the four server operations and the cursor's `next`. */
  method Patch(server: Shim.Target, cursor: Shim.Target)
    requires server != cursor
    modifies server, cursor
    ensures server.slots == Shim.WrapSlots(old(server.slots), SERVER_OPERATIONS, NAME)
    ensures cursor.slots == Shim.WrapSlots(old(cursor.slots), CURSOR_OPERATIONS, NAME)
  {
    server.WrapEach(SERVER_OPERATIONS, NAME);
    cursor.WrapEach(CURSOR_OPERATIONS, NAME);
  }

  /** `unpatch`: the same five methods. */
  method Unpatch(server: Shim.Target, cursor: Shim.Target)
    requires server != cursor
    modifies server, cursor
    ensures server.slots == Shim.UnwrapSlots(old(server.slots), SERVER_OPERATIONS)
    ensures cursor.slots == Shim.UnwrapSlots(old(cursor.slots), CURSOR_OPERATIONS)
  {
    server.UnwrapEach(SERVER_OPERATIONS);
    cursor.UnwrapEach(CURSOR_OPERATIONS);
  }

  /**
   * Unpatching after patching gives both prototypes their original methods
   * back, and patching wraps exactly the five listed methods, each once.
   */
  lemma UnpatchRestores(server: Shim.Slots, cursor: Shim.Slots, k: string)
    ensures Shim.UnwrapSlots(Shim.WrapSlots(server, SERVER_OPERATIONS, NAME), SERVER_OPERATIONS) == server
    ensures Shim.UnwrapSlots(Shim.WrapSlots(cursor, CURSOR_OPERATIONS, NAME), CURSOR_OPERATIONS) == cursor
    ensures k in server ==>
      Shim.WrapSlots(server, SERVER_OPERATIONS, NAME)[k] == (if k in SERVER_OPERATIONS then Shim.Wrapped(NAME, server[k]) else server[k])
  {
    Shim.UnwrapUndoesWrap(server, SERVER_OPERATIONS, NAME);
    Shim.UnwrapUndoesWrap(cursor, CURSOR_OPERATIONS, NAME);
    if k in server {
      Shim.WrapSlotsAt(server, SERVER_OPERATIONS, NAME, k);
    }
  }
}
