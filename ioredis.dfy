/**
 * The ioredis adapter (src/instrumentation/ioredis.js): `sendCommand` of the
 * client prototype is wrapped so that every tracked command gets one child span
 * per tracer, and both of the command's completion functions, `reject` and
 * `resolve`, are put behind wrappers that finish those spans.
 */
module Ioredis {
  import opened Tracing
  import opened Cls
  import opened Lifecycle
  import opened Callbacks
  import Shim

  const NAME := "ioredis"
  const IOREDIS_DB_TYPE := "ioredis"
  const OPERATION_NAME := "ioredis"
  const SEND_COMMAND := "sendCommand"
  const PATCHED: seq<string> := [SEND_COMMAND]

  /** Commands that never get a span. */
  const UNTRACKED_COMMANDS: seq<string> :=
    ["ping", "flushall", "flushdb", "select", "auth", "info", "quit", "slaveof", "config", "sentinel"]

  /** `${commandObj.name} ${commandObj.args}`. */
  function Statement(name: string, args: seq<string>): string {
    name + " " + JoinComma(args)
  }

  function CommandTags(name: string, args: seq<string>): Slot {
    map[SPAN_KIND := Str(SPAN_KIND_RPC_CLIENT), DB_TYPE := Str(IOREDIS_DB_TYPE), DB_STATEMENT := Str(Statement(name, args))]
  }

  /** An ioredis command object: name, arguments, and the two functions that settle its promise. */
  class Command {
    const name: string
    const args: seq<string>
    var reject: Callback
    var resolve: Callback

    constructor (name: string, args: seq<string>, reject: Callback, resolve: Callback)
      ensures this.name == name && this.args == args && this.reject == reject && this.resolve == resolve
    {
      this.name := name;
      this.args := args;
      this.reject := reject;
      this.resolve := resolve;
    }
  }

  /**
   * `wrappedInternalSendCommand(commandObj)`: an untracked command goes
   * straight to the original; any other gets one child span per tracer, its
   * `reject` records a truthy error and finishes the spans, its `resolve` only
   * finishes them, and then the original is called once with the command.
   */
  method SendCommand(store: ContextStore, tracers: seq<Tracer>, cmd: Command, rec: Recorder)
    returns (spans: seq<SpanId>)
    requires store.Valid()
    modifies cmd, rec
    ensures cmd.name in UNTRACKED_COMMANDS ==>
      && spans == [] && cmd.reject == old(cmd.reject) && cmd.resolve == old(cmd.resolve)
      && rec.nextSpan == old(rec.nextSpan)
      && rec.calls == old(rec.calls) + [Invoke(SEND_COMMAND, [Str(cmd.name)])]
    ensures cmd.name !in UNTRACKED_COMMANDS ==>
      && spans == Consecutive(old(rec.nextSpan), |tracers|)
      && rec.nextSpan == old(rec.nextSpan) + |tracers|
      && cmd.reject == Traced(ErrorOutcome, spans, old(cmd.reject))
      && cmd.resolve == Traced(NoOutcome, spans, old(cmd.resolve))
      && rec.calls == old(rec.calls)
        + ChildStarts(store.context, tracers, Prefixed(OPERATION_NAME, cmd.name), CommandTags(cmd.name, cmd.args), old(rec.nextSpan))
        + [Invoke(SEND_COMMAND, [Str(cmd.name)])]
  {
    if cmd.name in UNTRACKED_COMMANDS {
      rec.Invoke(SEND_COMMAND, [Str(cmd.name)]);
      return [];
    }
    spans := StartChildSpans(store, tracers, Prefixed(OPERATION_NAME, cmd.name), CommandTags(cmd.name, cmd.args), rec);
    cmd.reject := Traced(ErrorOutcome, spans, cmd.reject);
    cmd.resolve := Traced(NoOutcome, spans, cmd.resolve);
    rec.Invoke(SEND_COMMAND, [Str(cmd.name)]);
  }

  /** A settled command never gets the error tag on the `resolve` path, whatever arguments it passes. */
  lemma {:induction false} ResolveTagsNothing(spans: seq<SpanId>, original: Callback, args: seq<Value>, c: Call)
    requires !original.Traced? && c.SetTag?
    ensures c !in FireCalls(Traced(NoOutcome, spans, original), args)
  {
    NotTaggedIn(spans, FinishOp, c);
    assert FireCalls(Traced(NoOutcome, spans, original), args) == OpCalls(spans, FinishOp) + FireCalls(original, Forwarded(args));
  }

  /** `shimmer.wrap(redis.prototype, 'sendCommand', ...)`. */
  method Patch(proto: Shim.Target)
    modifies proto
    ensures proto.slots == Shim.WrapSlots(old(proto.slots), PATCHED, NAME)
  {
    proto.WrapEach(PATCHED, NAME);
  }

  /** `shimmer.unwrap(redis.prototype, 'sendCommand')`. */
  method Unpatch(proto: Shim.Target)
    modifies proto
    ensures proto.slots == Shim.UnwrapSlots(old(proto.slots), PATCHED)
  {
    proto.UnwrapEach(PATCHED);
  }
}
