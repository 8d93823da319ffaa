/**
 * Method patching as shimmer does it: an object is a table of method slots; a
 * wrap puts a wrapper in front of what a slot holds and an unwrap takes the
 * outermost wrapper off again.
 */
module Shim {

  /**
   * A method slot: the original function; a shimmer wrapper (named by its
   * adapter) around an inner slot; a function an adapter assigned to the slot
   * directly, which calls the inner slot and which shimmer cannot unwrap; or
   * nothing (`undefined`).
   */
  datatype Slot = Original(name: string) | Wrapped(wrapper: string, inner: Slot) | Replaced(replacer: string, inner: Slot) | Missing

  type Slots = map<string, Slot>

  /** `shimmer.wrap(obj, name, wrapper)`; shimmer leaves an object without such a method alone. */
  function WrapSlot(slots: Slots, name: string, wrapper: string): (r: Slots)
    ensures r.Keys == slots.Keys
    ensures name in slots ==> r[name] == Wrapped(wrapper, slots[name])
    ensures forall k :: k in slots && k != name ==> r[k] == slots[k]
  {
    if name in slots then slots[name := Wrapped(wrapper, slots[name])] else slots
  }

  /** `shimmer.unwrap(obj, name)`; a slot that holds no wrapper is left as it is. */
  function UnwrapSlot(slots: Slots, name: string): (r: Slots)
    ensures r.Keys == slots.Keys
    ensures name in slots && slots[name].Wrapped? ==> r[name] == slots[name].inner
    ensures forall k :: k in slots && (k != name || !slots[k].Wrapped?) ==> r[k] == slots[k]
  {
    if name in slots && slots[name].Wrapped? then slots[name := slots[name].inner] else slots
  }

  /** What `obj[name]` reads. */
  function SlotAt(slots: Slots, name: string): Slot {
    if name in slots then slots[name] else Missing
  }

  /** `obj[name] = replacement`, the replacement calling what the slot held. */
  function ReplaceSlot(slots: Slots, name: string, replacer: string): (r: Slots)
    ensures r.Keys == slots.Keys + {name}
    ensures r[name] == Replaced(replacer, SlotAt(slots, name))
    ensures forall k :: k in slots && k != name ==> r[k] == slots[k]
  {
    slots[name := Replaced(replacer, SlotAt(slots, name))]
  }

  /** Wrapping the methods of a list, in order. */
  function WrapSlots(slots: Slots, names: seq<string>, wrapper: string): (r: Slots)
    ensures r.Keys == slots.Keys
  {
    if names == [] then slots else WrapSlots(WrapSlot(slots, names[0], wrapper), names[1..], wrapper)
  }

  /** Unwrapping the methods of a list, in order. */
  function UnwrapSlots(slots: Slots, names: seq<string>): (r: Slots)
    ensures r.Keys == slots.Keys
  {
    if names == [] then slots else UnwrapSlots(UnwrapSlot(slots, names[0]), names[1..])
  }

  predicate NoDuplicates(names: seq<string>) {
    forall i, j :: 0 <= i < j < |names| ==> names[i] != names[j]
  }

  /** Wrapping a duplicate-free list wraps each listed method once and touches nothing else. */
  lemma {:induction false} WrapSlotsAt(slots: Slots, names: seq<string>, wrapper: string, k: string)
    requires NoDuplicates(names) && k in slots
    ensures WrapSlots(slots, names, wrapper)[k] == if k in names then Wrapped(wrapper, slots[k]) else slots[k]
  {
    if names != [] {
      var next := WrapSlot(slots, names[0], wrapper);
      assert NoDuplicates(names[1..]);
      WrapSlotsAt(next, names[1..], wrapper, k);
      assert k in names <==> k == names[0] || k in names[1..];
      assert names[0] !in names[1..] by {
        forall i | 0 <= i < |names[1..]| ensures names[1..][i] != names[0] {
          assert names[i + 1] != names[0];
        }
      }
    }
  }

  /** Unwrapping a duplicate-free list unwraps each listed method once and touches nothing else. */
  lemma {:induction false} UnwrapSlotsAt(slots: Slots, names: seq<string>, k: string)
    requires NoDuplicates(names) && k in slots
    ensures UnwrapSlots(slots, names)[k] == if k in names && slots[k].Wrapped? then slots[k].inner else slots[k]
  {
    if names != [] {
      var next := UnwrapSlot(slots, names[0]);
      assert NoDuplicates(names[1..]);
      UnwrapSlotsAt(next, names[1..], k);
      assert k in names <==> k == names[0] || k in names[1..];
      assert names[0] !in names[1..] by {
        forall i | 0 <= i < |names[1..]| ensures names[1..][i] != names[0] {
          assert names[i + 1] != names[0];
        }
      }
    }
  }

  /** An adapter's unpatch undoes its patch: the object's methods are the originals again. */
  lemma UnwrapUndoesWrap(slots: Slots, names: seq<string>, wrapper: string)
    requires NoDuplicates(names)
    ensures UnwrapSlots(WrapSlots(slots, names, wrapper), names) == slots
  {
    var patched := WrapSlots(slots, names, wrapper);
    var restored := UnwrapSlots(patched, names);
    forall k | k in slots ensures restored[k] == slots[k] {
      WrapSlotsAt(slots, names, wrapper, k);
      UnwrapSlotsAt(patched, names, k);
    }
  }

  /** An object (a module's exports or a prototype) whose methods can be wrapped in place. */
  class Target {
    var slots: Slots

    constructor (slots: Slots)
      ensures this.slots == slots
    {
      this.slots := slots;
    }

    method Wrap(name: string, wrapper: string)
      modifies this
      ensures slots == WrapSlot(old(slots), name, wrapper)
    {
      if name in slots {
        slots := slots[name := Wrapped(wrapper, slots[name])];
      }
    }

    /** A plain assignment `obj[name] = replacement`. */
    method Replace(name: string, replacer: string)
      modifies this
      ensures slots == ReplaceSlot(old(slots), name, replacer)
    {
      slots := slots[name := Replaced(replacer, SlotAt(slots, name))];
    }

    method Unwrap(name: string)
      modifies this
      ensures slots == UnwrapSlot(old(slots), name)
    {
      if name in slots && slots[name].Wrapped? {
        slots := slots[name := slots[name].inner];
      }
    }

    /** `names.forEach((name) => shimmer.wrap(obj, name, wrapper))`. */
    method WrapEach(names: seq<string>, wrapper: string)
      modifies this
      ensures slots == WrapSlots(old(slots), names, wrapper)
    {
      var i := 0;
      while i < |names|
        invariant 0 <= i <= |names|
        invariant WrapSlots(old(slots), names, wrapper) == WrapSlots(slots, names[i..], wrapper)
      {
        assert names[i..][1..] == names[i + 1..];
        Wrap(names[i], wrapper);
        i := i + 1;
      }
    }

    /** `names.forEach((name) => shimmer.unwrap(obj, name))`. */
    method UnwrapEach(names: seq<string>)
      modifies this
      ensures slots == UnwrapSlots(old(slots), names)
    {
      var i := 0;
      while i < |names|
        invariant 0 <= i <= |names|
        invariant UnwrapSlots(old(slots), names) == UnwrapSlots(slots, names[i..])
      {
        assert names[i..][1..] == names[i + 1..];
        Unwrap(names[i]);
        i := i + 1;
      }
    }
  }
}
