/**
 * The grpc-caller adapter (src/instrumentation/grpc-caller.js): the library's
 * `wrap` is replaced so that every client it builds has its methods replaced
 * by functions that inject each tracer's current root span into the call
 * metadata before calling the original method.
 */
module GrpcCaller {
  import opened Wrappers
  import opened Tracing
  import opened Cls
  import opened Lifecycle
  import Shim

  const NAME := "@guanghe/grpc-caller"
  const WRAP := "wrap"

  /** The prototype keys the adapter leaves alone. */
  predicate Skipped(key: string) {
    key == "constructor" || key == "exec"
  }

  /** The prototype after the `keys.forEach(...)` loop: every key but the skipped ones replaced by a traced function. */
  function TracedMethods(slots: Shim.Slots): (r: Shim.Slots)
    ensures r.Keys == slots.Keys
  {
    map k | k in slots :: if Skipped(k) then slots[k] else Shim.Replaced(NAME, slots[k])
  }

  /**
   * The replacement `wrap(...args)`: the original builds the client, every
   * method of the client's prototype except `constructor` and `exec` is
   * replaced, and the very client the original built is returned.
   */
  method Wrap(args: seq<Value>, instance: Value, proto: Shim.Target, rec: Recorder)
    returns (returned: Value)
    modifies proto, rec
    ensures returned == instance
    ensures proto.slots == TracedMethods(old(proto.slots))
    ensures rec.nextSpan == old(rec.nextSpan)
    ensures rec.calls == old(rec.calls) + [Invoke(WRAP, args)]
  {
    rec.Invoke(WRAP, args);
    ghost var original := proto.slots;
    var remaining := proto.slots.Keys;
    while remaining != {}
      invariant remaining <= original.Keys
      invariant proto.slots.Keys == original.Keys
      invariant rec.nextSpan == old(rec.nextSpan) && rec.calls == old(rec.calls) + [Invoke(WRAP, args)]
      invariant forall k :: k in original ==>
        proto.slots[k] == if k in remaining || Skipped(k) then original[k] else Shim.Replaced(NAME, original[k])
      decreases remaining
    {
      var key :| key in remaining;
      if !Skipped(key) {
        proto.Replace(key, NAME);
      }
      remaining := remaining - {key};
    }
    assert proto.slots == TracedMethods(original);
    returned := instance;
  }

  /** The metadata the call sends: the caller's, or a fresh object when it passed none. */
  function Carrier(metadata: Option<map<string, Value>>): map<string, Value> {
    if metadata.Some? then metadata.value else map[]
  }

  /** The metadata after each tracer has injected its root span into it. */
  function Sent(context: Context, keys: seq<Option<Symbol>>, tracers: seq<Tracer>, metadata: Option<map<string, Value>>): map<string, Value>
    requires |keys| == |tracers|
  {
    InjectedAll(Carrier(metadata), tracers, RootSpans(context, keys))
  }

  /**
   * With distinct tracer headers, the metadata sent carries each tracer's
   * current root span under that tracer's header, and every other entry the
   * caller passed.
   */
  lemma SentCarriesRoots(context: Context, tracers: seq<Tracer>, metadata: Option<map<string, Value>>, i: nat, key: string)
    requires i < |tracers|
    requires forall j, k :: 0 <= j < k < |tracers| ==> tracers[j].header != tracers[k].header
    ensures tracers[i].header in Sent(context, Namespaces(tracers), tracers, metadata)
    ensures Sent(context, Namespaces(tracers), tracers, metadata)[tracers[i].header] == CurrentSpan(context, tracers[i].ns)
    ensures (forall j :: 0 <= j < |tracers| ==> tracers[j].header != key) ==>
      (key in Sent(context, Namespaces(tracers), tracers, metadata) <==> metadata.Some? && key in metadata.value)
  {
    var keys := Namespaces(tracers);
    NamespaceAt(tracers, i);
    InjectedAllHeaders(Carrier(metadata), tracers, RootSpans(context, keys), i);
    if forall j :: 0 <= j < |tracers| ==> tracers[j].header != key {
      InjectedAllKeeps(Carrier(metadata), tracers, RootSpans(context, keys), key);
    }
  }

  /**
   * A replaced method called as `(arg, metadata, options, fn)`: every tracer
   * injects its root span into the metadata (a fresh object when there is
   * none), then the old method is called with the same arguments and the
   * metadata, and what it returns is returned.
   */
  method TracedCall(store: ContextStore, tracers: seq<Tracer>, key: string, arg: Value, metadata: Option<map<string, Value>>,
                    options: Value, fn: Value, returnedByOld: Value, rec: Recorder)
    returns (returned: Value, sent: map<string, Value>)
    modifies rec
    ensures returned == returnedByOld
    ensures sent == Sent(store.context, Namespaces(tracers), tracers, metadata)
    ensures rec.nextSpan == old(rec.nextSpan)
    ensures rec.calls == old(rec.calls) + InjectCalls(tracers, RootSpans(store.context, Namespaces(tracers)))
      + [Invoke(key, [arg, Dict(sent), options, fn])]
  {
    var roots := RootSpans(store.context, Namespaces(tracers));
    sent := InjectAll(tracers, roots, Carrier(metadata), rec);
    rec.Invoke(key, [arg, Dict(sent), options, fn]);
    returned := returnedByOld;
  }

  /** `grpcCaller.wrap = _wrap(original)`: a plain assignment, not a shimmer wrap. */
  method Patch(grpcCaller: Shim.Target)
    modifies grpcCaller
    ensures grpcCaller.slots == Shim.ReplaceSlot(old(grpcCaller.slots), WRAP, NAME)
  {
    grpcCaller.Replace(WRAP, NAME);
  }
}
