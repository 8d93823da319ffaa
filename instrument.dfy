/**
 * The facade of src/instrument.js: it validates the tracer list, gives every
 * tracer a namespace key, hooks the modules the registry names, patches each
 * loaded module with the adapters that apply to its name and version, records
 * what it patched in a Map keyed by the module's exports, and replays that Map
 * to unpatch.
 */
module Instrument {
  import opened Wrappers
  import opened Tracing
  import opened Registry

  const TRACERS_REQUIRED := "tracers is required"

  /** The `tracers` option: left out (defaults to []), a list, or something else. */
  datatype TracersOption = Omitted | List(tracers: seq<Tracer>) | NotAList

  /** The constructor's check: anything but a list is refused; no option means no tracers. */
  function ValidTracers(option: TracersOption): (r: Result<seq<Tracer>, string>)
    ensures r.Failure? <==> option.NotAList?
    ensures r.Failure? ==> r.error == TRACERS_REQUIRED
    ensures option.Omitted? ==> r == Success([])
    ensures option.List? ==> r == Success(option.tracers)
  {
    match option
    case Omitted => Success([])
    case List(ts) => Success(ts)
    case NotAList => Failure(TRACERS_REQUIRED)
  }

  /** `_.uniq`: the first occurrence of every element, in order. */
  function Uniq(s: seq<string>): (r: seq<string>)
    ensures forall x :: x in r <==> x in s
    ensures forall i, j :: 0 <= i < j < |r| ==> r[i] != r[j]
    ensures |r| <= |s|
  {
    if s == [] then []
    else
      var u := Uniq(s[..|s| - 1]);
      assert forall x :: x in s <==> x in s[..|s| - 1] || x == s[|s| - 1];
      if s[|s| - 1] in u then u else u + [s[|s| - 1]]
  }

  function Modules(ds: seq<Descriptor>): (r: seq<string>)
    ensures |r| == |ds|
    ensures forall i :: 0 <= i < |ds| ==> r[i] == ds[i].moduleName
  {
    if ds == [] then [] else Modules(ds[..|ds| - 1]) + [ds[|ds| - 1].moduleName]
  }

  /** The module names the facade hooks: every registry module, each once. */
  function ModuleNames(ds: seq<Descriptor>): (r: seq<string>)
    ensures forall name :: name in r <==> exists d :: d in ds && d.moduleName == name
    ensures forall i, j :: 0 <= i < j < |r| ==> r[i] != r[j]
  {
    var r := Uniq(Modules(ds));
    assert forall name :: name in Modules(ds) <==> exists d :: d in ds && d.moduleName == name by {
      forall name | name in Modules(ds) ensures exists d :: d in ds && d.moduleName == name {
        var i :| 0 <= i < |ds| && Modules(ds)[i] == name;
        assert ds[i] in ds;
      }
    }
    r
  }

  /**
   * The hook's filter: the module name matches and either the version is
   * unknown, the adapter declares no list of ranges, or some range is satisfied.
   */
  predicate Applicable(d: Descriptor, moduleName: string, version: Option<Version>) {
    d.moduleName == moduleName && Supported(d.supportedVersions, version)
  }

  /** An unknown version, or no declared ranges, passes; otherwise some range must be satisfied. */
  predicate Supported(ranges: Option<seq<Range>>, version: Option<Version>) {
    version.None? || ranges.None? || exists i :: 0 <= i < |ranges.value| && Satisfies(version.value, ranges.value[i])
  }

  /** The adapters the hook applies to a loaded module, in registry order. */
  function Selected(ds: seq<Descriptor>, moduleName: string, version: Option<Version>): (r: seq<Descriptor>)
    ensures |r| <= |ds|
  {
    if ds == [] then []
    else
      var last := ds[|ds| - 1];
      Selected(ds[..|ds| - 1], moduleName, version) + (if Applicable(last, moduleName, version) then [last] else [])
  }

  /** An adapter is applied exactly when it is listed and applicable. */
  lemma {:induction false} SelectedMembers(ds: seq<Descriptor>, moduleName: string, version: Option<Version>)
    ensures forall d :: d in Selected(ds, moduleName, version) <==> d in ds && Applicable(d, moduleName, version)
  {
    if ds != [] {
      SelectedMembers(ds[..|ds| - 1], moduleName, version);
      assert forall d :: d in ds <==> d in ds[..|ds| - 1] || d == ds[|ds| - 1] by {
        assert ds == ds[..|ds| - 1] + [ds[|ds| - 1]];
      }
    }
  }

  /** A module-exports object, by identity. */
  type Exports = nat

  /** A JavaScript Map from keys to adapters, as its entries in insertion order. */
  type Record<K> = seq<(K, Descriptor)>

  /** The keys of the Map. */
  function Keys<K(==)>(m: Record<K>): set<K> {
    if m == [] then {} else {m[0].0} + Keys(m[1..])
  }

  /** No key appears twice, as in a JavaScript Map. */
  predicate UniqueKeys<K(==)>(m: Record<K>) {
    m != [] ==> m[0].0 !in Keys(m[1..]) && UniqueKeys(m[1..])
  }

  function Lookup<K(==)>(m: Record<K>, k: K): (r: Option<Descriptor>)
    ensures r.Some? <==> k in Keys(m)
  {
    if m == [] then None else if m[0].0 == k then Some(m[0].1) else Lookup(m[1..], k)
  }

  /**
   * `map.set(k, v)`: a new key is appended; an existing key keeps its place and
   * takes the new value.
   */
  function MapSet<K(==,!new)>(m: Record<K>, k: K, v: Descriptor): (r: Record<K>)
    ensures Lookup(r, k) == Some(v)
    ensures forall k' :: k' != k ==> Lookup(r, k') == Lookup(m, k')
    ensures Keys(r) == Keys(m) + {k}
    ensures k !in Keys(m) ==> r == m + [(k, v)]
    ensures UniqueKeys(m) ==> UniqueKeys(r)
  {
    if m == [] then [(k, v)]
    else if m[0].0 == k then [(k, v)] + m[1..]
    else
      var r := [m[0]] + MapSet(m[1..], k, v);
      assert r[1..] == MapSet(m[1..], k, v);
      assert m == [m[0]] + m[1..];
      r
  }

  /** The Map after `set(exports, d)` for every selected adapter d, in order. */
  function RecordAll(m: Record<Exports>, exports: Exports, ds: seq<Descriptor>): Record<Exports> {
    if ds == [] then m else MapSet(RecordAll(m, exports, ds[..|ds| - 1]), exports, ds[|ds| - 1])
  }

  /** Every adapter applied to the same exports overwrites the previous entry: the last one stays. */
  lemma {:induction false} LastAdapterRecorded(m: Record<Exports>, exports: Exports, ds: seq<Descriptor>)
    requires ds != []
    ensures Lookup(RecordAll(m, exports, ds), exports) == Some(ds[|ds| - 1])
    ensures forall k :: k != exports ==> Lookup(RecordAll(m, exports, ds), k) == Lookup(m, k)
  {
    if |ds| > 1 {
      LastAdapterRecorded(m, exports, ds[..|ds| - 1]);
    }
  }

  /** A call the facade makes on an adapter. */
  datatype AdapterCall = Patch(adapter: Adapter, exports: Exports, tracers: seq<Tracer>) | Unpatch(adapter: Adapter, exports: Exports)

  function PatchCalls(ds: seq<Descriptor>, exports: Exports, tracers: seq<Tracer>): (r: seq<AdapterCall>)
    ensures |r| == |ds|
  {
    if ds == [] then [] else PatchCalls(ds[..|ds| - 1], exports, tracers) + [Patch(ds[|ds| - 1].adapter, exports, tracers)]
  }

  function UnpatchCalls(m: Record<Exports>): (r: seq<AdapterCall>)
    ensures |r| == |m|
    ensures forall i :: 0 <= i < |m| ==> r[i] == Unpatch(m[i].1.adapter, m[i].0)
  {
    if m == [] then [] else UnpatchCalls(m[..|m| - 1]) + [Unpatch(m[|m| - 1].1.adapter, m[|m| - 1].0)]
  }

  lemma AppendStep(sel: seq<Descriptor>, d: Descriptor, m: Record<Exports>, exports: Exports, tracers: seq<Tracer>)
    ensures PatchCalls(sel + [d], exports, tracers) == PatchCalls(sel, exports, tracers) + [Patch(d.adapter, exports, tracers)]
    ensures RecordAll(m, exports, sel + [d]) == MapSet(RecordAll(m, exports, sel), exports, d)
  {
    assert (sel + [d])[..|sel|] == sel;
  }

  /** Filtering a concatenation filters each part. */
  lemma {:induction false} SelectedAppend(a: seq<Descriptor>, b: seq<Descriptor>, moduleName: string, version: Option<Version>)
    ensures Selected(a + b, moduleName, version) == Selected(a, moduleName, version) + Selected(b, moduleName, version)
  {
    if b != [] {
      var init := b[..|b| - 1];
      assert (a + b)[..|a + b| - 1] == a + init;
      SelectedAppend(a, init, moduleName, version);
    } else {
      assert a + b == a;
    }
  }

  /** No adapter targets a module the registry does not name. */
  lemma {:induction false} NoneSelected(ds: seq<Descriptor>, moduleName: string, version: Option<Version>)
    requires forall i :: 0 <= i < |ds| ==> ds[i].moduleName != moduleName
    ensures Selected(ds, moduleName, version) == []
  {
    if ds != [] {
      NoneSelected(ds[..|ds| - 1], moduleName, version);
    }
  }

  /** An unregistered adapter is never applied, whatever module is loaded. */
  lemma UnregisteredNeverApplied(d: Descriptor, moduleName: string, version: Option<Version>)
    requires d in UNREGISTERED
    ensures d !in Selected(REGISTRY, moduleName, version)
  {
    SelectedMembers(REGISTRY, moduleName, version);
  }

  /** The express module gets both express adapters on a 4.x version, and none otherwise. */
  lemma ExpressSelected(v: Version)
    ensures Selected(REGISTRY, "express", Some(v)) == if v.major == 4 then [EXPRESS, EXPRESS_ERROR] else []
  {
    var rest := REGISTRY[2..];
    assert REGISTRY == [EXPRESS] + [EXPRESS_ERROR] + rest;
    NoneSelected(rest, "express", Some(v));
    SelectedAppend([EXPRESS] + [EXPRESS_ERROR], rest, "express", Some(v));
    SelectedAppend([EXPRESS], [EXPRESS_ERROR], "express", Some(v));
    assert Supported(EXPRESS.supportedVersions, Some(v)) <==> v.major == 4 by {
      assert EXPRESS.supportedVersions.value[0] == AnyMinor(4);
    }
  }

  /** The http module is patched whatever its version, since its adapter declares no ranges. */
  lemma HttpAlwaysSelected(version: Option<Version>)
    ensures Selected(REGISTRY, "http", version) == [HTTP_CLIENT]
  {
    var before, rest := REGISTRY[..2], REGISTRY[3..];
    assert REGISTRY == before + [HTTP_CLIENT] + rest;
    NoneSelected(before, "http", version);
    NoneSelected(rest, "http", version);
    SelectedAppend(before + [HTTP_CLIENT], rest, "http", version);
    SelectedAppend(before, [HTTP_CLIENT], "http", version);
  }

  /** mysql2 is patched from 1.5 on within major version 1 ("^1.5"), or when its version is unknown. */
  lemma Mysql2Selected(version: Option<Version>)
    ensures Selected(REGISTRY, "mysql2", version)
      == if version.None? || (version.value.major == 1 && version.value.minor >= 5) then [MYSQL2] else []
  {
    var before, rest := REGISTRY[..5], REGISTRY[6..];
    assert REGISTRY == before + [MYSQL2] + rest;
    NoneSelected(before, "mysql2", version);
    NoneSelected(rest, "mysql2", version);
    SelectedAppend(before + [MYSQL2], rest, "mysql2", version);
    SelectedAppend(before, [MYSQL2], "mysql2", version);
    if version.Some? {
      assert Supported(MYSQL2.supportedVersions, version) <==> Satisfies(version.value, Caret(1, 5)) by {
        assert MYSQL2.supportedVersions.value[0] == Caret(1, 5);
      }
    }
  }

  /**
   * The Map's keying, as written: one entry per module exports, so of two
   * adapters patching the same exports only the later one is unpatched.
   * On express 4.x both express adapters patch, and only expressError is undone.
   */
  lemma ExpressUnpatchMissed(exports: Exports, tracers: seq<Tracer>, v: Version)
    requires v.major == 4
    ensures PatchCalls(Selected(REGISTRY, "express", Some(v)), exports, tracers)
      == [Patch(Express, exports, tracers), Patch(ExpressError, exports, tracers)]
    ensures UnpatchCalls(RecordAll([], exports, Selected(REGISTRY, "express", Some(v))))
      == [AdapterCall.Unpatch(ExpressError, exports)]
  {
    ExpressSelected(v);
    ExpressPair(exports, tracers);
  }

  lemma ExpressPair(exports: Exports, tracers: seq<Tracer>)
    ensures PatchCalls([EXPRESS, EXPRESS_ERROR], exports, tracers) == [Patch(Express, exports, tracers), Patch(ExpressError, exports, tracers)]
    ensures UnpatchCalls(RecordAll([], exports, [EXPRESS, EXPRESS_ERROR])) == [AdapterCall.Unpatch(ExpressError, exports)]
  {
    var ds := [EXPRESS, EXPRESS_ERROR];
    assert ds[..1] == [EXPRESS];
    assert RecordAll([], exports, ds[..1]) == [(exports, EXPRESS)];
  }

  /** The Map keyed by exports and adapter together: every adapter applied keeps its own entry. */
  function RecordEach(m: Record<(Exports, Adapter)>, exports: Exports, ds: seq<Descriptor>): Record<(Exports, Adapter)> {
    if ds == [] then m else MapSet(RecordEach(m, exports, ds[..|ds| - 1]), (exports, ds[|ds| - 1].adapter), ds[|ds| - 1])
  }

  /** `unpatch()` over the corrected Map. */
  function UnpatchEachCalls(m: Record<(Exports, Adapter)>): (r: seq<AdapterCall>)
    ensures |r| == |m|
    ensures forall i :: 0 <= i < |m| ==> r[i] == Unpatch(m[i].1.adapter, m[i].0.0)
  {
    if m == [] then [] else UnpatchEachCalls(m[..|m| - 1]) + [Unpatch(m[|m| - 1].1.adapter, m[|m| - 1].0.0)]
  }

  lemma {:induction false} KeysIndex<K>(m: Record<K>, k: K)
    ensures k in Keys(m) <==> exists i :: 0 <= i < |m| && m[i].0 == k
  {
    if m != [] {
      KeysIndex(m[1..], k);
      if k in Keys(m[1..]) {
        var i :| 0 <= i < |m[1..]| && m[1..][i].0 == k;
        assert m[i + 1].0 == k;
      }
    }
  }

  /** With the corrected Map, adapters with distinct names each get their own unpatch call, in order. */
  lemma {:induction false} EveryPatchUndone(exports: Exports, ds: seq<Descriptor>)
    requires forall i, j :: 0 <= i < j < |ds| ==> ds[i].adapter != ds[j].adapter
    ensures |UnpatchEachCalls(RecordEach([], exports, ds))| == |ds|
    ensures forall i :: 0 <= i < |ds| ==> UnpatchEachCalls(RecordEach([], exports, ds))[i] == Unpatch(ds[i].adapter, exports)
  {
    EntriesOfEach(exports, ds);
  }

  lemma {:induction false} EntriesOfEach(exports: Exports, ds: seq<Descriptor>)
    requires forall i, j :: 0 <= i < j < |ds| ==> ds[i].adapter != ds[j].adapter
    ensures |RecordEach([], exports, ds)| == |ds|
    ensures forall i :: 0 <= i < |ds| ==> RecordEach([], exports, ds)[i] == ((exports, ds[i].adapter), ds[i])
  {
    if ds != [] {
      var init, last := ds[..|ds| - 1], ds[|ds| - 1];
      EntriesOfEach(exports, init);
      var m := RecordEach([], exports, init);
      KeysIndex(m, (exports, last.adapter));
      assert (exports, last.adapter) !in Keys(m);
    }
  }

  /** With the corrected Map, both express adapters are undone. */
  lemma ExpressUnpatchComplete(exports: Exports, v: Version)
    requires v.major == 4
    ensures UnpatchEachCalls(RecordEach([], exports, Selected(REGISTRY, "express", Some(v))))
      == [AdapterCall.Unpatch(Express, exports), AdapterCall.Unpatch(ExpressError, exports)]
  {
    ExpressSelected(v);
    ExpressPairUndone(exports);
  }

  lemma ExpressPairUndone(exports: Exports)
    ensures UnpatchEachCalls(RecordEach([], exports, [EXPRESS, EXPRESS_ERROR]))
      == [AdapterCall.Unpatch(Express, exports), AdapterCall.Unpatch(ExpressError, exports)]
  {
    EveryPatchUndone(exports, [EXPRESS, EXPRESS_ERROR]);
  }

  class Instrument {
    var tracers: seq<Tracer>
    /** The `_instrumented` Map. */
    var instrumented: Record<Exports>
    /** The module names handed to the require hook. */
    var hooked: seq<string>
    /** The calls made on adapters' `patch` and `unpatch`, in order. */
    var adapterCalls: seq<AdapterCall>

    predicate Valid()
      reads this
    {
      UniqueKeys(instrumented)
    }

    /**
     * `new Instrument({ tracers })` for a list of tracers: every tracer gets a
     * fresh symbol (from `firstSymbol` on) as its namespace key, distinct
     * tracers get distinct keys, the list keeps its order, and the hook is armed.
     */
    constructor (tracers: seq<Tracer>, firstSymbol: Symbol)
      modifies set t | t in tracers
      ensures Valid()
      ensures this.tracers == tracers
      ensures forall i :: 0 <= i < |tracers| ==>
        tracers[i].ns.Some? && firstSymbol <= tracers[i].ns.value < firstSymbol + |tracers|
      ensures forall i, j :: 0 <= i < |tracers| && 0 <= j < |tracers| && tracers[i].ns == tracers[j].ns ==>
        tracers[i] == tracers[j]
      ensures instrumented == [] && adapterCalls == []
      ensures hooked == ModuleNames(REGISTRY)
    {
      var i := 0;
      while i < |tracers|
        invariant 0 <= i <= |tracers|
        invariant forall k :: 0 <= k < i ==>
          && tracers[k].ns.Some? && firstSymbol <= tracers[k].ns.value < firstSymbol + i
          && tracers[tracers[k].ns.value - firstSymbol] == tracers[k]
      {
        tracers[i].ns := Some(firstSymbol + i);
        i := i + 1;
      }
      forall i, j | 0 <= i < |tracers| && 0 <= j < |tracers| && tracers[i].ns == tracers[j].ns
        ensures tracers[i] == tracers[j]
      {
        assert tracers[i] == tracers[tracers[i].ns.value - firstSymbol] == tracers[j];
      }
      this.tracers := tracers;
      instrumented := [];
      adapterCalls := [];
      hooked := ModuleNames(REGISTRY);
    }

    /**
     * The require hook for a loaded module: filters the registry down to the
     * adapters that apply, then patches the module with each in order and
     * records it in the Map; it hands back the very same exports.
     */
    method OnRequire(exports: Exports, moduleName: string, version: Option<Version>) returns (r: Exports)
      requires Valid()
      modifies this
      ensures Valid()
      ensures r == exports
      ensures tracers == old(tracers) && hooked == old(hooked)
      ensures adapterCalls == old(adapterCalls) + PatchCalls(Selected(REGISTRY, moduleName, version), exports, tracers)
      ensures instrumented == RecordAll(old(instrumented), exports, Selected(REGISTRY, moduleName, version))
    {
      var selected := Selected(REGISTRY, moduleName, version);
      var i := 0;
      while i < |selected|
        invariant 0 <= i <= |selected|
        invariant Valid()
        invariant tracers == old(tracers) && hooked == old(hooked)
        invariant adapterCalls == old(adapterCalls) + PatchCalls(selected[..i], exports, tracers)
        invariant instrumented == RecordAll(old(instrumented), exports, selected[..i])
      {
        var d := selected[i];
        assert selected[..i + 1] == selected[..i] + [d];
        AppendStep(selected[..i], d, old(instrumented), exports, tracers);
        adapterCalls := adapterCalls + [Patch(d.adapter, exports, tracers)];
        instrumented := MapSet(instrumented, exports, d);
        i := i + 1;
      }
      assert selected[..i] == selected;
      r := exports;
    }

    /** `unpatch()`: calls every recorded adapter's unpatch on its exports, in Map order. */
    method Unpatch()
      modifies this
      ensures tracers == old(tracers) && hooked == old(hooked) && instrumented == old(instrumented)
      ensures adapterCalls == old(adapterCalls) + UnpatchCalls(instrumented)
    {
      var i := 0;
      while i < |instrumented|
        invariant 0 <= i <= |instrumented|
        invariant tracers == old(tracers) && hooked == old(hooked) && instrumented == old(instrumented)
        invariant adapterCalls == old(adapterCalls) + UnpatchCalls(instrumented[..i])
      {
        assert instrumented[..i + 1][..i] == instrumented[..i];
        var entry := instrumented[i];
        adapterCalls := adapterCalls + [AdapterCall.Unpatch(entry.1.adapter, entry.0)];
        i := i + 1;
      }
      assert instrumented[..i] == instrumented;
    }
  }
}
