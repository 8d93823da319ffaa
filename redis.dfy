/**
 * The redis adapter (src/instrumentation/redis.js): `internal_send_command` of
 * `RedisClient.prototype` is wrapped so that every tracked command gets one
 * child span per tracer and a completion callback in front of its own.
 */
module Redis {
  import opened Tracing
  import opened Cls
  import opened Lifecycle
  import opened Callbacks
  import Shim

  const NAME := "redis"
  const REDIS_DB_TYPE := "redis"
  const OPERATION_NAME := "redis"
  const SEND_COMMAND := "internal_send_command"
  const PATCHED: seq<string> := [SEND_COMMAND]

  /** Commands that never get a span. */
  const UNTRACKED_COMMANDS: seq<string> :=
    ["ping", "flushall", "flushdb", "select", "auth", "info", "quit", "slaveof", "config", "sentinel"]

  /** `${commandObj.command} ${commandObj.args}`. */
  function Statement(command: string, args: seq<string>): string {
    command + " " + JoinComma(args)
  }

  function CommandTags(command: string, args: seq<string>): Slot {
    map[SPAN_KIND := Str(SPAN_KIND_RPC_CLIENT), DB_TYPE := Str(REDIS_DB_TYPE), DB_STATEMENT := Str(Statement(command, args))]
  }

  /** A redis command object: the command, its arguments and the callback the library will call. */
  class Command {
    const command: string
    const args: seq<string>
    var callback: Callback

    constructor (command: string, args: seq<string>, callback: Callback)
      ensures this.command == command && this.args == args && this.callback == callback
    {
      this.command := command;
      this.args := args;
      this.callback := callback;
    }
  }

  /**
   * `wrappedInternalSendCommand(commandObj)`: an untracked command goes
   * straight to the original; any other gets one child span per tracer, tagged
   * with kind, database type and statement, and its callback is wrapped before
   * the original is called once with the command object.
   */
  method SendCommand(store: ContextStore, tracers: seq<Tracer>, cmd: Command, rec: Recorder)
    returns (spans: seq<SpanId>)
    requires store.Valid()
    modifies cmd, rec
    ensures cmd.command in UNTRACKED_COMMANDS ==>
      && spans == [] && cmd.callback == old(cmd.callback) && rec.nextSpan == old(rec.nextSpan)
      && rec.calls == old(rec.calls) + [Invoke(SEND_COMMAND, [Str(cmd.command)])]
    ensures cmd.command !in UNTRACKED_COMMANDS ==>
      && spans == Consecutive(old(rec.nextSpan), |tracers|)
      && rec.nextSpan == old(rec.nextSpan) + |tracers|
      && cmd.callback == Traced(ErrorOutcome, spans, old(cmd.callback))
      && rec.calls == old(rec.calls)
        + ChildStarts(store.context, tracers, Prefixed(OPERATION_NAME, cmd.command), CommandTags(cmd.command, cmd.args), old(rec.nextSpan))
        + [Invoke(SEND_COMMAND, [Str(cmd.command)])]
  {
    if cmd.command in UNTRACKED_COMMANDS {
      rec.Invoke(SEND_COMMAND, [Str(cmd.command)]);
      return [];
    }
    spans := StartChildSpans(store, tracers, Prefixed(OPERATION_NAME, cmd.command), CommandTags(cmd.command, cmd.args), rec);
    cmd.callback := Traced(ErrorOutcome, spans, cmd.callback);
    rec.Invoke(SEND_COMMAND, [Str(cmd.command)]);
  }

  /** `shimmer.wrap(redis.RedisClient.prototype, 'internal_send_command', ...)`. */
  method Patch(proto: Shim.Target)
    modifies proto
    ensures proto.slots == Shim.WrapSlots(old(proto.slots), PATCHED, NAME)
  {
    proto.WrapEach(PATCHED, NAME);
  }

  /** `shimmer.unwrap(redis.RedisClient.prototype, 'internal_send_command')`. */
  method Unpatch(proto: Shim.Target)
    modifies proto
    ensures proto.slots == Shim.UnwrapSlots(old(proto.slots), PATCHED)
  {
    proto.UnwrapEach(PATCHED);
  }
}
