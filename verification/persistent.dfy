/**
 * `js_persistent_t<T>`, the owner of one engine reference, and the
 * reference helpers that fill, read and release it.  The engine's reference
 * table is a class of its own whose methods behave as `js.h` documents.
 */
module Persistents {
  import opened Errors
  import opened Values
  import Engines

  /** What an engine reference points at: a value, or nothing once a weak reference's value was collected. */
  datatype Target = Alive(value: Value) | Cleared

  /** An engine reference: its target and its reference count (0 for a weak reference). */
  datatype Entry = Entry(target: Target, count: nat)

  /** A `js_ref_t *`: null, or the reference with identity `id`. */
  datatype RefPtr = NoRef | Ref(id: nat)

  /** The engine's table of live references. */
  class ReferenceTable {
    var live: map<nat, Entry>
    var next: nat
    /** The references deleted so far, and how many deletions there were. */
    ghost var deleted: set<nat>
    ghost var deletions: nat

    /**
     * Identities are handed out in order, so a new one is never live; a
     * deleted reference is live no more, and each deletion deleted a
     * different reference.
     */
    ghost predicate Valid()
      reads this
    {
      && (forall id | id in live :: id < next)
      && (forall id | id in deleted :: id < next && id !in live)
      && deletions == |deleted|
    }

    constructor ()
      ensures live == map[] && deleted == {} && deletions == 0 && Valid()
    {
      live, next := map[], 0;
      deleted, deletions := {}, 0;
    }

    /** `js_create_reference(env, value, count, &ref)`. */
    method Create(value: Value, count: nat) returns (id: nat)
      requires Valid()
      modifies this
      ensures id !in old(live) && id !in old(deleted) && live == old(live)[id := Entry(Alive(value), count)]
      ensures deleted == old(deleted) && deletions == old(deletions)
      ensures Valid()
    {
      id := next;
      live, next := live[id := Entry(Alive(value), count)], next + 1;
    }

    /** `js_delete_reference(env, ref)`: an unknown reference is an invalid argument. */
    method Delete(r: RefPtr) returns (status: int)
      modifies this
      ensures r.Ref? && r.id in old(live) ==> status == 0 && live == old(live) - {r.id}
      ensures r.Ref? && r.id in old(live) ==> deleted == old(deleted) + {r.id} && deletions == old(deletions) + 1
      ensures !(r.Ref? && r.id in old(live)) ==>
                status == Engines.InvalidArgument && live == old(live) && deleted == old(deleted) && deletions == old(deletions)
      ensures next == old(next)
      ensures old(Valid()) ==> Valid()
    {
      if r.Ref? && r.id in live {
        live := live - {r.id};
        deleted, deletions := deleted + {r.id}, deletions + 1;
        status := 0;
      } else {
        status := Engines.InvalidArgument;
      }
    }

    /** `js_get_reference_value(env, ref, &value)`: the target, null once collected. */
    function Lookup(r: RefPtr): (o: Reply<Target>)
      reads this
      ensures o.Done? <==> r.Ref? && r.id in live
      ensures o.Done? ==> o.value == live[r.id].target
    {
      if r.Ref? && r.id in live then Done(live[r.id].target) else Failed(Engines.InvalidArgument)
    }

    /** A garbage collection that reclaims the value of weak reference `id`. */
    method Collect(id: nat)
      modifies this
      ensures id in old(live) && old(live)[id].count == 0 ==> live == old(live)[id := Entry(Cleared, 0)]
      ensures !(id in old(live) && old(live)[id].count == 0) ==> live == old(live)
      ensures next == old(next) && deleted == old(deleted) && deletions == old(deletions)
    {
      if id in live && live[id].count == 0 {
        live := live[id := Entry(Cleared, 0)];
      }
    }
  }

  /** `js_persistent_t<T>`: the environment and the reference it owns. */
  class Persistent {
    var env: ReferenceTable?
    var ref: RefPtr

    /** A reference is only ever owned together with its environment. */
    ghost predicate Valid()
      reads this
    {
      ref.Ref? ==> env != null
    }

    /** The default constructor: no environment and no reference. */
    constructor ()
      ensures env == null && ref == NoRef && Valid()
    {
      env, ref := null, NoRef;
    }

    /** The move constructor: take over `that`'s reference and leave `that` owning none. */
    constructor Move(that: Persistent)
      requires that.Valid()
      modifies that
      ensures env == old(that.env) && ref == old(that.ref) && Valid()
      ensures that.env == old(that.env) && that.ref == NoRef && that.Valid()
    {
      env, ref := that.env, that.ref;
      new;
      that.ref := NoRef;
    }

    /**
     * The destructor: nothing for an empty holder, otherwise
     * `js_delete_reference` on its environment, asserting success.  The
     * result says whether that assertion fails.
     */
    method Destroy() returns (aborted: bool)
      requires Valid()
      modifies env
      ensures ref == old(ref) && env == old(env)
      ensures old(ref) == NoRef ==> !aborted && (env != null ==> env.live == old(env.live))
      ensures old(ref).Ref? ==> (aborted <==> old(ref).id !in old(env.live))
      ensures old(ref).Ref? ==> env.live == old(env.live) - {old(ref).id}
      ensures env != null ==> env.next == old(env.next)
      ensures env != null ==> env.deletions == old(env.deletions) + (if old(ref).Ref? && !aborted then 1 else 0)
      ensures env != null && old(env.Valid()) ==> env.Valid()
    {
      if ref == NoRef {
        return false;
      }
      var err := env.Delete(ref);
      aborted := err != 0;
    }
  }

  /** `js_create_reference` and `js_create_weak_reference`: record the environment, create a reference of `count`. */
  method Bind(env: ReferenceTable, value: Value, count: nat, result: Persistent) returns (status: int)
    requires env.Valid()
    modifies env, result
    ensures status == 0 && result.env == env && result.ref.Ref? && result.Valid()
    ensures result.ref.id !in old(env.live) && env.live == old(env.live)[result.ref.id := Entry(Alive(value), count)]
    ensures env.deleted == old(env.deleted) && env.deletions == old(env.deletions) && env.Valid()
  {
    result.env := env;
    var id := env.Create(value, count);
    result.ref := Ref(id);
    status := 0;
  }

  /**
   * `js_create_reference`: a strong reference (count 1) to `value`.  Whatever
   * `result` owned before is overwritten without being released.
   */
  method CreateReference(env: ReferenceTable, value: Value, result: Persistent) returns (status: int)
    requires env.Valid()
    modifies env, result
    ensures status == 0 && result.env == env && result.ref.Ref? && result.Valid()
    ensures result.ref.id !in old(env.live) && env.live == old(env.live)[result.ref.id := Entry(Alive(value), 1)]
    ensures env.deleted == old(env.deleted) && env.deletions == old(env.deletions) && env.Valid()
  {
    status := Bind(env, value, 1, result);
  }

  /** `js_create_weak_reference`: a weak reference (count 0) to `value`. */
  method CreateWeakReference(env: ReferenceTable, value: Value, result: Persistent) returns (status: int)
    requires env.Valid()
    modifies env, result
    ensures status == 0 && result.env == env && result.ref.Ref? && result.Valid()
    ensures result.ref.id !in old(env.live) && env.live == old(env.live)[result.ref.id := Entry(Alive(value), 0)]
    ensures env.deleted == old(env.deleted) && env.deletions == old(env.deletions) && env.Valid()
  {
    status := Bind(env, value, 0, result);
  }

  /**
   * `js_get_reference_value` into a `T`: the engine's error is passed up, a
   * collected value fails the assertion that it is not null, and otherwise
   * the value is the result.
   */
  method GetReferenceValue(env: ReferenceTable, reference: Persistent) returns (o: Outcome<Value>)
    ensures o.Err? <==> env.Lookup(reference.ref).Failed?
    ensures o.Err? ==> o.code == env.Lookup(reference.ref).code
    ensures o.Abort? <==> env.Lookup(reference.ref) == Done(Cleared)
    ensures o.Ok? <==> reference.ref.Ref? && reference.ref.id in env.live && env.live[reference.ref.id].target.Alive?
    ensures o.Ok? ==> o.value == env.live[reference.ref.id].target.value
  {
    var r := env.Lookup(reference.ref);
    if r.Failed? {
      return Err(r.code);
    }
    if r.value == Cleared {
      return Abort;
    }
    return Ok(r.value.value);
  }

  /** `js_get_reference_value` into a `std::optional<T>`: empty once the value was collected. */
  method GetOptionalReferenceValue(env: ReferenceTable, reference: Persistent) returns (o: Outcome<Target>)
    ensures o.Ok? || o.Err?
    ensures o.Ok? <==> reference.ref.Ref? && reference.ref.id in env.live
    ensures o.Ok? ==> o.value == env.live[reference.ref.id].target
    ensures o.Err? ==> o.code == Engines.InvalidArgument
  {
    var r := env.Lookup(reference.ref);
    if r.Failed? {
      return Err(r.code);
    }
    return Ok(r.value);
  }

  /**
   * `js_reset_reference`: nothing for an empty holder; otherwise delete the
   * reference and, only if that succeeds, forget it.
   */
  method ResetReference(env: ReferenceTable, reference: Persistent) returns (status: int)
    modifies env, reference
    ensures reference.env == old(reference.env)
    ensures old(reference.ref) == NoRef ==> status == 0 && reference.ref == NoRef && env.live == old(env.live)
    ensures old(reference.ref).Ref? && old(reference.ref).id in old(env.live) ==>
              status == 0 && reference.ref == NoRef && env.live == old(env.live) - {old(reference.ref).id}
    ensures old(reference.ref).Ref? && old(reference.ref).id !in old(env.live) ==>
              status == Engines.InvalidArgument && reference.ref == old(reference.ref) && env.live == old(env.live)
    ensures env.deletions == old(env.deletions) + (if old(reference.ref).Ref? && status == 0 then 1 else 0)
    ensures old(env.Valid()) ==> env.Valid()
  {
    if reference.ref == NoRef {
      return 0;
    }
    var err := env.Delete(reference.ref);
    if err < 0 {
      return err;
    }
    reference.ref := NoRef;
    return 0;
  }

  /**
   * A strong reference keeps its value: after `js_create_reference`, a
   * garbage collection and `js_get_reference_value` give the value back.
   */
  method CreateCollectGet(env: ReferenceTable, value: Value, holder: Persistent) returns (o: Outcome<Value>)
    requires env.Valid()
    modifies env, holder
    ensures o == Ok(value)
  {
    var status := CreateReference(env, value, holder);
    env.Collect(holder.ref.id);
    o := GetReferenceValue(env, holder);
  }

  /**
   * A weak reference does not: after `js_create_weak_reference` and a
   * collection of its value, the optional read is empty and the plain read
   * fails its assertion.
   */
  method WeakCollectGet(env: ReferenceTable, value: Value, holder: Persistent) returns (o: Outcome<Target>, p: Outcome<Value>)
    requires env.Valid()
    modifies env, holder
    ensures o == Ok(Cleared) && p == Abort
  {
    var status := CreateWeakReference(env, value, holder);
    env.Collect(holder.ref.id);
    o := GetOptionalReferenceValue(env, holder);
    p := GetReferenceValue(env, holder);
  }

  /**
   * Moving makes ownership unique: destroying the moved-from holder and then
   * the new one deletes the reference exactly once, and neither destructor
   * fails its assertion.
   */
  method MoveThenDestroy(env: ReferenceTable, value: Value, holder: Persistent) returns (first: bool, second: bool)
    requires env.Valid()
    modifies env, holder
    ensures !first && !second
    ensures env.live == old(env.live) && env.deletions == old(env.deletions) + 1
  {
    var status := CreateReference(env, value, holder);
    var id := holder.ref.id;
    var moved := new Persistent.Move(holder);
    first := holder.Destroy();
    assert env.live == old(env.live)[id := Entry(Alive(value), 1)];
    second := moved.Destroy();
    assert env.live == old(env.live)[id := Entry(Alive(value), 1)] - {id};
  }

  /**
   * Resetting releases a reference once: a reset holder's destructor does
   * nothing, and a second reset succeeds without touching the table.
   */
  method ResetTwiceThenDestroy(env: ReferenceTable, value: Value, holder: Persistent) returns (first: int, second: int, aborted: bool)
    requires env.Valid()
    modifies env, holder
    ensures first == 0 && second == 0 && !aborted
    ensures env.live == old(env.live) && env.deletions == old(env.deletions) + 1
  {
    var status := CreateReference(env, value, holder);
    var id := holder.ref.id;
    first := ResetReference(env, holder);
    assert env.live == old(env.live)[id := Entry(Alive(value), 1)] - {id};
    second := ResetReference(env, holder);
    aborted := holder.Destroy();
  }

  /**
   * Creating a reference into a holder that already owns one leaves the first
   * reference live in the table with no holder owning it any more.
   */
  method CreateTwice(env: ReferenceTable, first: Value, second: Value, holder: Persistent) returns (orphan: nat)
    requires env.Valid()
    modifies env, holder
    ensures orphan in env.live && env.live[orphan] == Entry(Alive(first), 1)
    ensures holder.ref.Ref? && holder.ref.id != orphan
  {
    var status := CreateReference(env, first, holder);
    orphan := holder.ref.id;
    status := CreateReference(env, second, holder);
  }
}
