/**
 * The completion callbacks the database adapters put in front of the library's
 * own callback (redis `commandObj.callback`, ioredis `reject` / `resolve`, pg
 * `pgQuery.callback`, mongodb-core `wrapCallback`): record the outcome on every
 * span, finish every span, then hand the very same arguments on to the
 * callback that was there before, if there was one.
 */
module Callbacks {
  import opened Wrappers
  import opened Tracing

  /** `spans.forEach(log error fields)` followed by `spans.forEach(setTag(error, true))`. */
  function CaptureError(spans: seq<SpanId>, err: Value): seq<Call> {
    OpCalls(spans, LogOp(ErrorFields(err))) + OpCalls(spans, TagOp(ERROR, Bool(true)))
  }

  /** The same, guarded by `if (err)`. */
  function CaptureIfError(spans: seq<SpanId>, err: Value): seq<Call> {
    if Truthy(err) then CaptureError(spans, err) else []
  }

  /** Argument i of a call; a missing argument is undefined. */
  function Arg(args: seq<Value>, i: nat): (v: Value)
    ensures i < |args| ==> v == args[i]
    ensures i >= |args| ==> v == Undefined
  {
    if i < |args| then args[i] else Undefined
  }

  /** `originalCallback(err, res)`: a wrapper hands on exactly the first two arguments. */
  function Forwarded(args: seq<Value>): (r: seq<Value>)
    ensures |r| == 2 && Arg(r, 0) == Arg(args, 0) && Arg(r, 1) == Arg(args, 1)
    ensures |args| == 2 ==> r == args
  {
    [Arg(args, 0), Arg(args, 1)]
  }

  /** What a wrapper records before finishing its spans. */
  datatype Outcome =
    | ErrorOutcome     // redis, ioredis `reject`, mongodb-core: the error, if any
    | ErrorAndRows     // pg: the error, if any, then `row_count` when there is a result
    | NoOutcome        // ioredis `resolve`: nothing

  /** A callback slot: none, the program's own function, or a tracing wrapper around what was there. */
  datatype Callback =
    | NoCallback
    | UserCallback(name: string)
    | Traced(outcome: Outcome, spans: seq<SpanId>, original: Callback)

  const ROW_COUNT := "row_count"

  /** A callback argument as `if (done) done(...)` treats it: a function, or nothing to call. */
  predicate CallbackArg(v: Value) {
    v.Fn? || !Truthy(v)
  }

  /** The slot such an argument fills. */
  function CallbackOf(v: Value): (cb: Callback)
    requires CallbackArg(v)
    ensures cb.UserCallback? <==> v.Fn?
    ensures cb.UserCallback? ==> cb.name == v.name
    ensures !cb.UserCallback? ==> cb == NoCallback
  {
    if v.Fn? then UserCallback(v.name) else NoCallback
  }

  function OutcomeCalls(outcome: Outcome, spans: seq<SpanId>, args: seq<Value>): seq<Call> {
    match outcome
    case ErrorOutcome => CaptureIfError(spans, Arg(args, 0))
    case ErrorAndRows =>
      CaptureIfError(spans, Arg(args, 0))
        + (if Truthy(Arg(args, 1)) then OpCalls(spans, LogOp(map[ROW_COUNT := Property(Arg(args, 1), "rowCount")])) else [])
    case NoOutcome => []
  }

  /** The calls made when the library invokes the callback slot with `args`. */
  function FireCalls(cb: Callback, args: seq<Value>): seq<Call> {
    match cb
    case NoCallback => []
    case UserCallback(name) => [Invoke(name, args)]
    case Traced(outcome, spans, original) =>
      OutcomeCalls(outcome, spans, args) + OpCalls(spans, FinishOp) + FireCalls(original, Forwarded(args))
  }

  /** The program's own callback at the bottom of a chain of wrappers, if any. */
  function Innermost(cb: Callback): Option<string> {
    match cb
    case NoCallback => None
    case UserCallback(name) => Some(name)
    case Traced(_, _, original) => Innermost(original)
  }

  /** The calls into the program's own code, in order. */
  function Invocations(calls: seq<Call>): seq<Call> {
    if calls == [] then []
    else Invocations(calls[..|calls| - 1]) + (if calls[|calls| - 1].Invoke? then [calls[|calls| - 1]] else [])
  }

  lemma {:induction false} InvocationsAppend(a: seq<Call>, b: seq<Call>)
    ensures Invocations(a + b) == Invocations(a) + Invocations(b)
  {
    if b != [] {
      var n := |b| - 1;
      assert (a + b)[..|a + b| - 1] == a + b[..n];
      InvocationsAppend(a, b[..n]);
    } else {
      assert a + b == a;
    }
  }

  /** Span operations never call into the program. */
  lemma {:induction false} NoInvocationsIn(spans: seq<SpanId>, op: SpanOp)
    ensures Invocations(OpCalls(spans, op)) == []
  {
    if spans != [] {
      NoInvocationsIn(spans[..|spans| - 1], op);
    }
  }

  lemma OutcomeInvokesNothing(outcome: Outcome, spans: seq<SpanId>, args: seq<Value>)
    ensures Invocations(OutcomeCalls(outcome, spans, args)) == []
  {
    var err := Arg(args, 0);
    NoInvocationsIn(spans, LogOp(ErrorFields(err)));
    NoInvocationsIn(spans, TagOp(ERROR, Bool(true)));
    InvocationsAppend(OpCalls(spans, LogOp(ErrorFields(err))), OpCalls(spans, TagOp(ERROR, Bool(true))));
    var rows := LogOp(map[ROW_COUNT := Property(Arg(args, 1), "rowCount")]);
    NoInvocationsIn(spans, rows);
    InvocationsAppend(CaptureIfError(spans, err), if Truthy(Arg(args, 1)) then OpCalls(spans, rows) else []);
  }

  /** The arguments the program's own callback receives: the library's, or their first two once a wrapper is in front. */
  function Received(cb: Callback, args: seq<Value>): seq<Value> {
    if cb.Traced? then Forwarded(args) else args
  }

  /**
   * However many wrappers sit in front of it, the program's own callback is
   * called exactly once, with the error and the result the library passed,
   * and nothing else of the program is called; without one, nothing is called.
   */
  lemma {:induction false} ForwardsSameArguments(cb: Callback, args: seq<Value>)
    ensures Invocations(FireCalls(cb, args)) == if Innermost(cb).Some? then [Invoke(Innermost(cb).value, Received(cb, args))] else []
  {
    match cb
    case NoCallback =>
    case UserCallback(name) =>
      assert Invocations(FireCalls(cb, args)) == Invocations([]) + [Invoke(name, args)];
    case Traced(outcome, spans, original) =>
      ForwardsSameArguments(original, Forwarded(args));
      assert Received(original, Forwarded(args)) == Forwarded(args);
      OutcomeInvokesNothing(outcome, spans, args);
      NoInvocationsIn(spans, FinishOp);
      InvocationsAppend(OutcomeCalls(outcome, spans, args), OpCalls(spans, FinishOp));
      InvocationsAppend(OutcomeCalls(outcome, spans, args) + OpCalls(spans, FinishOp), FireCalls(original, Forwarded(args)));
  }

  /** Finishing is the wrapper's last act on its spans: the outcome records never finish. */
  lemma OutcomeFinishesNothing(outcome: Outcome, spans: seq<SpanId>, args: seq<Value>, s: SpanId)
    ensures multiset(OutcomeCalls(outcome, spans, args))[Finish(s)] == 0
  {
    var err := Arg(args, 0);
    NoFinishIn(spans, LogOp(ErrorFields(err)), s);
    NoFinishIn(spans, TagOp(ERROR, Bool(true)), s);
    NoFinishIn(spans, LogOp(map[ROW_COUNT := Property(Arg(args, 1), "rowCount")]), s);
  }

  /**
   * A wrapper whose spans are distinct finishes each of them exactly once when
   * it fires, and finishes no other span (the program's callback finishes nothing).
   */
  lemma FinishesEachOnce(outcome: Outcome, spans: seq<SpanId>, original: Callback, s: SpanId)
    requires Distinct(spans) && !original.Traced?
    ensures forall args :: multiset(FireCalls(Traced(outcome, spans, original), args))[Finish(s)] == if s in spans then 1 else 0
  {
    forall args ensures multiset(FireCalls(Traced(outcome, spans, original), args))[Finish(s)] == if s in spans then 1 else 0 {
      OutcomeFinishesNothing(outcome, spans, args, s);
      FinishEachOnce(spans, s);
      assert multiset(FireCalls(original, Forwarded(args)))[Finish(s)] == 0;
    }
  }

  /** Logging or tagging error never tags anything else, and only spans of the list are tagged. */
  lemma {:induction false} TaggedIn(spans: seq<SpanId>, op: SpanOp, s: SpanId)
    requires op.TagOp?
    ensures SetTag(s, op.key, op.value) in OpCalls(spans, op) <==> s in spans
  {
    if spans != [] {
      var n := |spans| - 1;
      TaggedIn(spans[..n], op, s);
      assert s in spans <==> s in spans[..n] || s == spans[n];
    }
  }

  lemma {:induction false} NotTaggedIn(spans: seq<SpanId>, op: SpanOp, c: Call)
    requires !op.TagOp? && c.SetTag?
    ensures c !in OpCalls(spans, op)
  {
    if spans != [] {
      NotTaggedIn(spans[..|spans| - 1], op, c);
    }
  }

  /**
   * A span of an error-recording wrapper gets the error tag exactly when the
   * library reports a truthy error.
   */
  lemma ErrorTaggedIff(outcome: Outcome, spans: seq<SpanId>, original: Callback, args: seq<Value>, s: SpanId)
    requires !outcome.NoOutcome? && !original.Traced? && s in spans
    ensures SetTag(s, ERROR, Bool(true)) in FireCalls(Traced(outcome, spans, original), args) <==> Truthy(Arg(args, 0))
  {
    var err := Arg(args, 0);
    var tag := SetTag(s, ERROR, Bool(true));
    TaggedIn(spans, TagOp(ERROR, Bool(true)), s);
    NotTaggedIn(spans, LogOp(ErrorFields(err)), tag);
    NotTaggedIn(spans, FinishOp, tag);
    NotTaggedIn(spans, LogOp(map[ROW_COUNT := Property(Arg(args, 1), "rowCount")]), tag);
  }

  /**
   * The wrapper an adapter installs over the spans it has just started (n
   * spans from `base`), fired once with `args`: each of those spans is
   * finished exactly once and no other span is; with an error-recording
   * outcome each of them gets the error tag exactly when the first argument is
   * truthy; and the callback that was there before is called once with the
   * error and the result the library passed.
   */
  lemma WrapperCompletes(outcome: Outcome, base: SpanId, n: nat, original: Callback, args: seq<Value>, s: SpanId)
    requires !original.Traced?
    ensures multiset(FireCalls(Traced(outcome, Consecutive(base, n), original), args))[Finish(s)]
      == if base <= s < base + n then 1 else 0
    ensures !outcome.NoOutcome? && base <= s < base + n ==>
      (SetTag(s, ERROR, Bool(true)) in FireCalls(Traced(outcome, Consecutive(base, n), original), args) <==> Truthy(Arg(args, 0)))
    ensures Invocations(FireCalls(Traced(outcome, Consecutive(base, n), original), args))
      == if original.UserCallback? then [Invoke(original.name, Forwarded(args))] else []
  {
    var spans := Consecutive(base, n);
    ConsecutiveSpans(base, n);
    ConsecutiveMember(base, n, s);
    FinishesEachOnce(outcome, spans, original, s);
    if !outcome.NoOutcome? && s in spans {
      ErrorTaggedIff(outcome, spans, original, args, s);
    }
    ForwardsSameArguments(Traced(outcome, spans, original), args);
  }

  /** `if (err) { spans.forEach(log); spans.forEach(setTag(error, true)) }`. */
  method RecordError(spans: seq<SpanId>, err: Value, rec: Recorder)
    modifies rec
    ensures rec.nextSpan == old(rec.nextSpan)
    ensures rec.calls == old(rec.calls) + CaptureIfError(spans, err)
  {
    if Truthy(err) {
      rec.ForEach(spans, LogOp(ErrorFields(err)));
      rec.ForEach(spans, TagOp(ERROR, Bool(true)));
    }
  }

  /** What a wrapper records about the call's outcome, before finishing. */
  method RecordOutcome(outcome: Outcome, spans: seq<SpanId>, args: seq<Value>, rec: Recorder)
    modifies rec
    ensures rec.nextSpan == old(rec.nextSpan)
    ensures rec.calls == old(rec.calls) + OutcomeCalls(outcome, spans, args)
  {
    match outcome
    case NoOutcome =>
    case ErrorOutcome =>
      RecordError(spans, Arg(args, 0), rec);
    case ErrorAndRows =>
      RecordError(spans, Arg(args, 0), rec);
      if Truthy(Arg(args, 1)) {
        rec.ForEach(spans, LogOp(map[ROW_COUNT := Property(Arg(args, 1), "rowCount")]));
      }
  }

  /** The library calling back whatever the slot holds, with `args`. */
  method Fire(cb: Callback, args: seq<Value>, rec: Recorder)
    modifies rec
    ensures rec.nextSpan == old(rec.nextSpan)
    ensures rec.calls == old(rec.calls) + FireCalls(cb, args)
    decreases cb
  {
    match cb
    case NoCallback =>
    case UserCallback(name) =>
      rec.Invoke(name, args);
    case Traced(outcome, spans, original) =>
      RecordOutcome(outcome, spans, args, rec);
      rec.ForEach(spans, FinishOp);
      Fire(original, Forwarded(args), rec);
  }
}
