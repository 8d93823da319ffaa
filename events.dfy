/**
 * The event-emitter side of the mysql and mysql2 adapters: the query object
 * the library returns is an emitter, and the adapters put two listeners on it,
 * one for 'error' that records the error on every span and one for 'end' that
 * finishes every span. Emitting an event calls the listeners registered for it
 * in registration order.
 */
module Events {
  import opened Tracing
  import opened Callbacks

  const ERROR_EVENT := "error"
  const END_EVENT := "end"

  /** What a listener the adapters register does. */
  datatype Listener = CaptureAll(spans: seq<SpanId>) | FinishAll(spans: seq<SpanId>)

  /** The calls one listener makes when its event is emitted with `arg`. */
  function ListenerCalls(l: Listener, arg: Value): seq<Call> {
    match l
    case CaptureAll(spans) => CaptureError(spans, arg)
    case FinishAll(spans) => OpCalls(spans, FinishOp)
  }

  /** `emitter.emit(event, arg)`: the listeners for `event`, in the order they were added. */
  function EmitCalls(listeners: seq<(string, Listener)>, event: string, arg: Value): seq<Call> {
    if listeners == [] then []
    else
      var (name, l) := listeners[|listeners| - 1];
      EmitCalls(listeners[..|listeners| - 1], event, arg) + (if name == event then ListenerCalls(l, arg) else [])
  }

  /** The two listeners a query gets: 'error' captures, 'end' finishes. */
  function QueryListeners(spans: seq<SpanId>): seq<(string, Listener)> {
    [(ERROR_EVENT, CaptureAll(spans)), (END_EVENT, FinishAll(spans))]
  }

  /** The calls of emitting a series of events, in order. */
  function EmitAll(listeners: seq<(string, Listener)>, events: seq<(string, Value)>): seq<Call> {
    if events == [] then []
    else EmitAll(listeners, events[..|events| - 1]) + EmitCalls(listeners, events[|events| - 1].0, events[|events| - 1].1)
  }

  /** How many of the events are `name`. */
  function Occurrences(events: seq<(string, Value)>, name: string): (r: nat)
    ensures r <= |events|
  {
    if events == [] then 0
    else Occurrences(events[..|events| - 1], name) + (if events[|events| - 1].0 == name then 1 else 0)
  }

  /** What one event does on a query holding only the adapter's two listeners. */
  lemma QueryEvent(spans: seq<SpanId>, event: string, arg: Value)
    ensures EmitCalls(QueryListeners(spans), event, arg)
      == (if event == ERROR_EVENT then CaptureError(spans, arg) else [])
       + (if event == END_EVENT then OpCalls(spans, FinishOp) else [])
  {
    var ls := QueryListeners(spans);
    assert ls[..|ls| - 1] == ls[..1];
    assert ls[..1][..0] == [];
    assert EmitCalls(ls[..1], event, arg) == if event == ERROR_EVENT then CaptureError(spans, arg) else [];
  }

  /**
   * On a query with the adapter's listeners, whatever events the library
   * emits, each span of the query is finished exactly as many times as 'end'
   * is emitted, so once for the usual 'end' (with or without an 'error' before
   * it) and never for an 'error' alone; no other span is finished.
   */
  lemma {:induction false} FinishedPerEnd(spans: seq<SpanId>, events: seq<(string, Value)>, s: SpanId)
    requires Distinct(spans)
    ensures multiset(EmitAll(QueryListeners(spans), events))[Finish(s)]
      == if s in spans then Occurrences(events, END_EVENT) else 0
  {
    if events != [] {
      var n := |events| - 1;
      var (event, arg) := events[n];
      FinishedPerEnd(spans, events[..n], s);
      QueryEvent(spans, event, arg);
      FinishEachOnce(spans, s);
      NoFinishIn(spans, LogOp(ErrorFields(arg)), s);
      NoFinishIn(spans, TagOp(ERROR, Bool(true)), s);
    }
  }

  /**
   * A span of the query gets the error tag exactly when 'error' was emitted
   * at least once; the listeners never tag a span outside the query.
   */
  lemma {:induction false} TaggedPerError(spans: seq<SpanId>, events: seq<(string, Value)>, s: SpanId)
    ensures SetTag(s, ERROR, Bool(true)) in EmitAll(QueryListeners(spans), events)
      <==> s in spans && Occurrences(events, ERROR_EVENT) > 0
  {
    if events != [] {
      var n := |events| - 1;
      var (event, arg) := events[n];
      TaggedPerError(spans, events[..n], s);
      QueryEvent(spans, event, arg);
      var tag := SetTag(s, ERROR, Bool(true));
      TaggedIn(spans, TagOp(ERROR, Bool(true)), s);
      NotTaggedIn(spans, LogOp(ErrorFields(arg)), tag);
      NotTaggedIn(spans, FinishOp, tag);
    }
  }

  lemma EmitStep(journal: seq<Call>, listeners: seq<(string, Listener)>, event: string, arg: Value, i: nat)
    requires i < |listeners|
    ensures journal + EmitCalls(listeners[..i + 1], event, arg)
      == journal + EmitCalls(listeners[..i], event, arg) + (if listeners[i].0 == event then ListenerCalls(listeners[i].1, arg) else [])
  {
    assert listeners[..i + 1][..i] == listeners[..i];
  }

  /** One listener running. */
  method RunListener(l: Listener, arg: Value, rec: Recorder)
    modifies rec
    ensures rec.nextSpan == old(rec.nextSpan)
    ensures rec.calls == old(rec.calls) + ListenerCalls(l, arg)
  {
    match l
    case CaptureAll(spans) =>
      rec.ForEach(spans, LogOp(ErrorFields(arg)));
      rec.ForEach(spans, TagOp(ERROR, Bool(true)));
    case FinishAll(spans) =>
      rec.ForEach(spans, FinishOp);
  }

  /** A query object: its SQL text and the listeners registered on it. */
  class Query {
    const sql: Value
    var listeners: seq<(string, Listener)>

    constructor (sql: Value)
      ensures this.sql == sql && listeners == []
    {
      this.sql := sql;
      listeners := [];
    }

    /** `query.on(event, listener)`. */
    method On(event: string, l: Listener)
      modifies this
      ensures listeners == old(listeners) + [(event, l)]
    {
      listeners := listeners + [(event, l)];
    }

    /** The adapter's two `query.on(...)` calls. */
    method Listen(spans: seq<SpanId>)
      modifies this
      ensures listeners == old(listeners) + QueryListeners(spans)
    {
      On(ERROR_EVENT, CaptureAll(spans));
      On(END_EVENT, FinishAll(spans));
    }

    /** `query.emit(event, arg)`. */
    method Emit(event: string, arg: Value, rec: Recorder)
      modifies rec
      ensures rec.nextSpan == old(rec.nextSpan)
      ensures rec.calls == old(rec.calls) + EmitCalls(listeners, event, arg)
    {
      ghost var journal := rec.calls;
      var ls := listeners;
      var i := 0;
      while i < |ls|
        invariant 0 <= i <= |ls|
        invariant rec.nextSpan == old(rec.nextSpan)
        invariant rec.calls == journal + EmitCalls(ls[..i], event, arg)
      {
        EmitStep(journal, ls, event, arg, i);
        if ls[i].0 == event {
          RunListener(ls[i].1, arg, rec);
        }
        i := i + 1;
      }
      assert ls[..i] == ls;
    }
  }
}
