/**
 * The span bookkeeping every adapter repeats: one span per tracer, started
 * either as a child of that tracer's current span (`cls.startChildSpan`) or as
 * the request's new root span (`cls.startRootSpan`), in tracer order.
 */
module Lifecycle {
  import opened Wrappers
  import opened Tracing
  import opened Cls

  /**
   * The `startSpan` calls of `tracers.map((tracer) => cls.startChildSpan(tracer, name, { tags }))`
   * with the tags passed on, as the corrected `StartChildSpanWithTags` does;
   * `cls.startChildSpan` as written drops them, which is this with `tags == map[]`.
   */
  function ChildStarts(context: Context, tracers: seq<Tracer>, name: string, tags: Slot, base: SpanId): (r: seq<Call>)
    reads tracers
    ensures |r| == |tracers|
  {
    if tracers == [] then []
    else
      var n := |tracers| - 1;
      ChildStarts(context, tracers[..n], name, tags, base)
        + [Call.StartSpan(tracers[n].id, base + n, name, ChildParent(context, tracers[n].ns), tags)]
  }

  /**
   * The i-th child span belongs to the i-th tracer, is the i-th fresh span and
   * is linked to that tracer's own current span, with the caller's tags.
   */
  lemma {:induction false} ChildStartsAt(context: Context, tracers: seq<Tracer>, name: string, tags: Slot, base: SpanId, i: nat)
    requires i < |tracers|
    ensures ChildStarts(context, tracers, name, tags, base)[i]
      == Call.StartSpan(tracers[i].id, base + i, name, ChildParent(context, tracers[i].ns), tags)
  {
    var n := |tracers| - 1;
    if i < n {
      ChildStartsAt(context, tracers[..n], name, tags, base, i);
    }
  }

  lemma ChildStartsStep(journal: seq<Call>, context: Context, tracers: seq<Tracer>, name: string, tags: Slot, base: SpanId, i: nat)
    requires i < |tracers|
    ensures journal + ChildStarts(context, tracers[..i + 1], name, tags, base)
      == journal + ChildStarts(context, tracers[..i], name, tags, base)
        + [Call.StartSpan(tracers[i].id, base + i, name, ChildParent(context, tracers[i].ns), tags)]
  {
    assert tracers[..i + 1][..i] == tracers[..i];
  }

  /**
   * `cls.startChildSpan` for one tracer of a valid store, with the tags passed
   * on as in the corrected `StartChildSpanWithTags`: it cannot fail.
   */
  method StartChildOf(store: ContextStore, tracer: Tracer, name: string, tags: Slot, rec: Recorder)
    returns (span: SpanId)
    requires store.Valid() && name != ""
    modifies rec
    ensures span == old(rec.nextSpan) && rec.nextSpan == span + 1
    ensures rec.calls == old(rec.calls) + [Call.StartSpan(tracer.id, span, name, ChildParent(store.context, tracer.ns), tags)]
  {
    var r := store.StartChildSpanWithTags(Some(tracer), name, tags, rec);
    span := r.value;
  }

  /**
   * One child span per tracer, in tracer order: the spans are fresh and
   * consecutive, each is linked to its own tracer's current span, and the
   * context is left alone.
   */
  method StartChildSpans(store: ContextStore, tracers: seq<Tracer>, name: string, tags: Slot, rec: Recorder)
    returns (spans: seq<SpanId>)
    requires store.Valid() && name != ""
    modifies rec
    ensures spans == Consecutive(old(rec.nextSpan), |tracers|)
    ensures rec.nextSpan == old(rec.nextSpan) + |tracers|
    ensures rec.calls == old(rec.calls) + ChildStarts(store.context, tracers, name, tags, old(rec.nextSpan))
  {
    ghost var base, journal, context := rec.nextSpan, rec.calls, store.context;
    spans := [];
    var i := 0;
    while i < |tracers|
      invariant 0 <= i <= |tracers|
      invariant spans == Consecutive(base, i)
      invariant rec.nextSpan == base + i
      invariant rec.calls == journal + ChildStarts(context, tracers[..i], name, tags, base)
    {
      ChildStartsStep(journal, context, tracers, name, tags, base, i);
      var span := StartChildOf(store, tracers[i], name, tags, rec);
      spans := spans + [span];
      i := i + 1;
    }
    assert tracers[..i] == tracers;
  }

  /** The `startSpan` calls of `cls.startRootSpan(tracers[key], name, parents[key])` for every key. */
  function RootStarts(tracers: seq<Tracer>, name: string, parents: seq<Value>, tags: Slot, base: SpanId): (r: seq<Call>)
    requires |parents| == |tracers|
    ensures |r| == |tracers|
  {
    if tracers == [] then []
    else
      var n := |tracers| - 1;
      RootStarts(tracers[..n], name, parents[..n], tags, base) + [Call.StartSpan(tracers[n].id, base + n, name, parents[n], tags)]
  }

  /** The i-th root span belongs to the i-th tracer, is the i-th fresh span and has the i-th parent, without tags. */
  lemma {:induction false} RootStartsAt(tracers: seq<Tracer>, name: string, parents: seq<Value>, tags: Slot, base: SpanId, i: nat)
    requires |parents| == |tracers| && i < |tracers|
    ensures RootStarts(tracers, name, parents, tags, base)[i] == Call.StartSpan(tracers[i].id, base + i, name, parents[i], tags)
  {
    var n := |tracers| - 1;
    if i < n {
      RootStartsAt(tracers[..n], name, parents[..n], tags, base, i);
    }
  }

  lemma RootStartsStep(journal: seq<Call>, tracers: seq<Tracer>, name: string, parents: seq<Value>, tags: Slot, base: SpanId, i: nat)
    requires |parents| == |tracers| && i < |tracers|
    ensures journal + RootStarts(tracers[..i + 1], name, parents[..i + 1], tags, base)
      == journal + RootStarts(tracers[..i], name, parents[..i], tags, base) + [Call.StartSpan(tracers[i].id, base + i, name, parents[i], tags)]
  {
    assert tracers[..i + 1][..i] == tracers[..i] && parents[..i + 1][..i] == parents[..i];
  }

  /** The tracers' namespace keys, in tracer order. */
  function Namespaces(tracers: seq<Tracer>): (r: seq<Option<Symbol>>)
    reads tracers
    ensures |r| == |tracers|
  {
    if tracers == [] then [] else Namespaces(tracers[..|tracers| - 1]) + [tracers[|tracers| - 1].ns]
  }

  lemma {:induction false} NamespaceAt(tracers: seq<Tracer>, i: nat)
    requires i < |tracers|
    ensures Namespaces(tracers)[i] == tracers[i].ns
  {
    var n := |tracers| - 1;
    if i < n {
      NamespaceAt(tracers[..n], i);
    }
  }

  /** The context after the slot of the i-th key records span `base + i` as its current span, for every i. */
  function RootsAssigned(context: Context, keys: seq<Option<Symbol>>, base: SpanId): Context {
    if keys == [] then context
    else
      var n := |keys| - 1;
      Assigned(RootsAssigned(context, keys[..n], base), keys[n], map[CURRENT_SPAN := Span(base + n)])
  }

  lemma RootsAssignedStep(context: Context, keys: seq<Option<Symbol>>, base: SpanId, i: nat)
    requires i < |keys|
    ensures RootsAssigned(context, keys[..i + 1], base)
      == Assigned(RootsAssigned(context, keys[..i], base), keys[i], map[CURRENT_SPAN := Span(base + i)])
  {
    assert keys[..i + 1][..i] == keys[..i];
  }

  /** Recording root spans keeps every current span a span. */
  lemma {:induction false} RootsAssignedValid(context: Context, keys: seq<Option<Symbol>>, base: SpanId)
    requires HoldsSpans(context)
    ensures HoldsSpans(RootsAssigned(context, keys, base))
  {
    if keys != [] {
      var n := |keys| - 1;
      RootsAssignedValid(context, keys[..n], base);
      RootSpanRecorded(RootsAssigned(context, keys[..n], base), keys[n], base + n);
    }
  }

  /**
   * When the tracers carry distinct namespace keys (as the facade's constructor
   * guarantees), each tracer's current span is afterwards the root span started
   * for it.
   */
  lemma {:induction false} RootsRecorded(context: Context, keys: seq<Option<Symbol>>, base: SpanId, i: nat)
    requires i < |keys|
    requires forall j, k :: 0 <= j < k < |keys| ==> keys[j] != keys[k]
    ensures CurrentSpan(RootsAssigned(context, keys, base), keys[i]) == Span(base + i)
  {
    var n := |keys| - 1;
    var before := RootsAssigned(context, keys[..n], base);
    if i == n {
      RootSpanRecorded(before, keys[n], base + n);
    } else {
      RootsRecorded(context, keys[..n], base, i);
      assert keys[i] != keys[n];
      assert keys[i] in before;
    }
  }

  /** Slots of keys no tracer uses keep their fields. */
  lemma {:induction false} RootsElsewhere(context: Context, keys: seq<Option<Symbol>>, base: SpanId, other: Option<Symbol>)
    requires other !in keys
    ensures SlotOf(RootsAssigned(context, keys, base), other) == SlotOf(context, other)
  {
    if keys != [] {
      var n := |keys| - 1;
      assert other !in keys[..n] by {
        forall j | 0 <= j < n ensures keys[..n][j] != other {
          assert keys[..n][j] == keys[j];
        }
      }
      RootsElsewhere(context, keys[..n], base, other);
      AssignedMerges(RootsAssigned(context, keys[..n], base), keys[n], map[CURRENT_SPAN := Span(base + n)]);
    }
  }

  /** `cls.startRootSpan` for one tracer with an operation name: it cannot fail. */
  method StartRootOf(store: ContextStore, tracer: Tracer, name: string, parent: Value, tags: Slot, rec: Recorder)
    returns (span: SpanId)
    requires name != ""
    modifies store, rec
    ensures span == old(rec.nextSpan) && rec.nextSpan == span + 1
    ensures rec.calls == old(rec.calls) + [Call.StartSpan(tracer.id, span, name, parent, tags)]
    ensures store.context == Assigned(old(store.context), tracer.ns, map[CURRENT_SPAN := Span(span)])
  {
    var r := store.StartRootSpanWithTags(Some(tracer), name, parent, tags, rec);
    span := r.value;
  }

  /**
   * One root span per tracer, in tracer order, each with its own parent: the
   * spans are fresh and consecutive and each becomes its tracer's current span.
   */
  method StartRootSpans(store: ContextStore, tracers: seq<Tracer>, name: string, parents: seq<Value>, tags: Slot, rec: Recorder)
    returns (spans: seq<SpanId>)
    requires |parents| == |tracers| && name != ""
    modifies store, rec
    ensures spans == Consecutive(old(rec.nextSpan), |tracers|)
    ensures rec.nextSpan == old(rec.nextSpan) + |tracers|
    ensures rec.calls == old(rec.calls) + RootStarts(tracers, name, parents, tags, old(rec.nextSpan))
    ensures store.context == RootsAssigned(old(store.context), Namespaces(tracers), old(rec.nextSpan))
    ensures old(store.Valid()) ==> store.Valid()
  {
    ghost var keys, base, journal, context := Namespaces(tracers), rec.nextSpan, rec.calls, store.context;
    spans := [];
    var i := 0;
    while i < |tracers|
      invariant 0 <= i <= |tracers|
      invariant spans == Consecutive(base, i)
      invariant rec.nextSpan == base + i
      invariant rec.calls == journal + RootStarts(tracers[..i], name, parents[..i], tags, base)
      invariant store.context == RootsAssigned(context, keys[..i], base)
      invariant keys == Namespaces(tracers)
    {
      NamespaceAt(tracers, i);
      RootStartsStep(journal, tracers, name, parents, tags, base, i);
      RootsAssignedStep(context, keys, base, i);
      var span := StartRootOf(store, tracers[i], name, parents[i], tags, rec);
      spans := spans + [span];
      i := i + 1;
    }
    assert tracers[..i] == tracers && parents[..i] == parents && keys[..i] == keys;
    if old(store.Valid()) {
      RootsAssignedValid(context, keys, base);
    }
  }

  /** `tracers.map((tracer) => cls.getRootSpan(tracer))`, from the tracers' namespace keys. */
  function RootSpans(context: Context, keys: seq<Option<Symbol>>): (r: seq<Value>)
    ensures |r| == |keys|
  {
    seq(|keys|, i requires 0 <= i < |keys| => CurrentSpan(context, keys[i]))
  }

  /** The parents `tracers.map((tracer) => tracer.extract(FORMAT_HTTP_HEADERS, headers))`. */
  function Extracted(tracers: seq<Tracer>, headers: Option<map<string, Value>>): (r: seq<Value>)
    ensures |r| == |tracers|
    ensures forall i :: 0 <= i < |tracers| ==> r[i] == Extract(tracers[i], headers)
  {
    if tracers == [] then [] else Extracted(tracers[..|tracers| - 1], headers) + [Extract(tracers[|tracers| - 1], headers)]
  }

  /** `spans[key]` for a tracer index: the span, or undefined past the end of the list. */
  function SpanAt(spans: seq<SpanId>, key: nat): (v: Value)
    ensures key < |spans| ==> v == Span(spans[key])
    ensures key >= |spans| ==> v == Undefined
  {
    if key < |spans| then Span(spans[key]) else Undefined
  }

  /** The carrier after `tracers.forEach((tracer, key) => tracer.inject(values[key], headers))`. */
  function InjectedAll(carrier: map<string, Value>, tracers: seq<Tracer>, values: seq<Value>): map<string, Value>
    requires |values| == |tracers|
  {
    if tracers == [] then carrier
    else
      var n := |tracers| - 1;
      InjectedAll(carrier, tracers[..n], values[..n])[tracers[n].header := values[n]]
  }

  /** The inject calls of the same loop. */
  function InjectCalls(tracers: seq<Tracer>, values: seq<Value>): (r: seq<Call>)
    requires |values| == |tracers|
    ensures |r| == |tracers|
    ensures forall i :: 0 <= i < |tracers| ==> r[i] == Call.Inject(tracers[i].id, values[i])
  {
    if tracers == [] then []
    else InjectCalls(tracers[..|tracers| - 1], values[..|tracers| - 1]) + [Call.Inject(tracers[|tracers| - 1].id, values[|tracers| - 1])]
  }

  /**
   * With distinct tracer headers, every tracer finds its own value in the
   * carrier, and keys no tracer writes keep their value.
   */
  lemma {:induction false} InjectedAllHeaders(carrier: map<string, Value>, tracers: seq<Tracer>, values: seq<Value>, i: nat)
    requires |values| == |tracers| && i < |tracers|
    requires forall j, k :: 0 <= j < k < |tracers| ==> tracers[j].header != tracers[k].header
    ensures tracers[i].header in InjectedAll(carrier, tracers, values)
    ensures InjectedAll(carrier, tracers, values)[tracers[i].header] == values[i]
  {
    var n := |tracers| - 1;
    if i < n {
      InjectedAllHeaders(carrier, tracers[..n], values[..n], i);
      assert tracers[i].header != tracers[n].header;
    }
  }

  /** Keys no tracer writes keep their value. */
  lemma {:induction false} InjectedAllKeeps(carrier: map<string, Value>, tracers: seq<Tracer>, values: seq<Value>, key: string)
    requires |values| == |tracers|
    requires forall i :: 0 <= i < |tracers| ==> tracers[i].header != key
    ensures key in InjectedAll(carrier, tracers, values) <==> key in carrier
    ensures key in carrier ==> InjectedAll(carrier, tracers, values)[key] == carrier[key]
  {
    if tracers != [] {
      var n := |tracers| - 1;
      InjectedAllKeeps(carrier, tracers[..n], values[..n], key);
    }
  }

  /** `tracers.forEach((tracer, key) => tracer.inject(values[key], FORMAT_HTTP_HEADERS, carrier))`. */
  method InjectAll(tracers: seq<Tracer>, values: seq<Value>, carrier: map<string, Value>, rec: Recorder)
    returns (carrier': map<string, Value>)
    requires |values| == |tracers|
    modifies rec
    ensures rec.nextSpan == old(rec.nextSpan)
    ensures carrier' == InjectedAll(carrier, tracers, values)
    ensures rec.calls == old(rec.calls) + InjectCalls(tracers, values)
  {
    carrier' := carrier;
    var i := 0;
    while i < |tracers|
      invariant 0 <= i <= |tracers|
      invariant rec.nextSpan == old(rec.nextSpan)
      invariant carrier' == InjectedAll(carrier, tracers[..i], values[..i])
      invariant rec.calls == old(rec.calls) + InjectCalls(tracers[..i], values[..i])
    {
      assert tracers[..i + 1][..i] == tracers[..i] && values[..i + 1][..i] == values[..i];
      carrier' := rec.Inject(tracers[i], values[i], carrier');
      i := i + 1;
    }
    assert tracers[..i] == tracers && values[..i] == values;
  }

  /** `spans[key]` for every tracer index. */
  function SpansByTracer(spans: seq<SpanId>, n: nat): (r: seq<Value>)
    ensures |r| == n
    ensures forall i :: 0 <= i < n ==> r[i] == SpanAt(spans, i)
  {
    if n == 0 then [] else SpansByTracer(spans, n - 1) + [SpanAt(spans, n - 1)]
  }
}
