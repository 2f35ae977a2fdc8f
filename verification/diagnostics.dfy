/**
 * The diagnostics tables of `jstl::diag`: two counters per function
 * address, raised by calls of `increase_untyped` and `increase_typed`, and
 * the name registered for each function.  The library itself never calls
 * these functions; whoever includes the header does, and the counters count
 * those calls.  Counters are `size_t`, so an increment wraps to 0 after
 * `SIZE_MAX`.
 */
module Diagnostics {
  import opened Values
  import Buffers

  /** The three tables, as values. */
  datatype Tables = Tables(untyped: map<nat, nat>, typed: map<nat, nat>, names: map<nat, seq<byte>>)

  /** The counter of `fn`: 0 until its first increment, as `operator[]` inserts it. */
  function Count(m: map<nat, nat>, fn: nat): nat {
    if fn in m then m[fn] else 0
  }

  /** `m[fn]++` on a `std::unordered_map<void *, size_t>`. */
  function Increment(m: map<nat, nat>, fn: nat): (r: map<nat, nat>)
    ensures r.Keys == m.Keys + {fn}
    ensures Count(m, fn) + 1 < Buffers.SizeModulus ==> Count(r, fn) == Count(m, fn) + 1
    ensures Count(m, fn) + 1 == Buffers.SizeModulus ==> Count(r, fn) == 0
    ensures forall other | other != fn :: Count(r, other) == Count(m, other)
  {
    m[fn := (Count(m, fn) + 1) % Buffers.SizeModulus]
  }

  /** The calls that change the tables: `increase_untyped(fn)`, `increase_typed(fn)` and `name(fn, name, len)`. */
  datatype Event = UntypedIncrease(fn: nat) | TypedIncrease(fn: nat) | Named(fn: nat, name: seq<byte>, len: nat)

  /** Whether an event can happen: `name` reads `len` bytes of its argument. */
  predicate Possible(ev: Event) {
    ev.Named? ==> ev.len <= |ev.name|
  }

  /** What an event does to the tables. */
  function Step(t: Tables, ev: Event): Tables
    requires Possible(ev)
  {
    match ev
    case UntypedIncrease(fn) => t.(untyped := Increment(t.untyped, fn))
    case TypedIncrease(fn) => t.(typed := Increment(t.typed, fn))
    case Named(fn, name, len) => t.(names := t.names[fn := name[..len]])
  }

  /** The tables after a sequence of events. */
  function Run(t: Tables, evs: seq<Event>): Tables
    requires forall i :: 0 <= i < |evs| ==> Possible(evs[i])
    decreases |evs|
  {
    if evs == [] then t else Run(Step(t, evs[0]), evs[1..])
  }

  /** How many of `evs` are calls of `increase_untyped(fn)`. */
  function UntypedIncreases(evs: seq<Event>, fn: nat): nat {
    if evs == [] then 0 else (if evs[0] == UntypedIncrease(fn) then 1 else 0) + UntypedIncreases(evs[1..], fn)
  }

  /** How many of `evs` are calls of `increase_typed(fn)`. */
  function TypedIncreases(evs: seq<Event>, fn: nat): nat {
    if evs == [] then 0 else (if evs[0] == TypedIncrease(fn) then 1 else 0) + TypedIncreases(evs[1..], fn)
  }

  /**
   * The counters count: short of wrapping, after any sequence of events the
   * untyped and typed counters of `fn` have grown by exactly the number of
   * calls of `increase_untyped(fn)` and `increase_typed(fn)` among them.
   */
  lemma {:induction false} CountersCount(t: Tables, evs: seq<Event>, fn: nat)
    requires forall i :: 0 <= i < |evs| ==> Possible(evs[i])
    requires Count(t.untyped, fn) + UntypedIncreases(evs, fn) < Buffers.SizeModulus
    requires Count(t.typed, fn) + TypedIncreases(evs, fn) < Buffers.SizeModulus
    ensures Count(Run(t, evs).untyped, fn) == Count(t.untyped, fn) + UntypedIncreases(evs, fn)
    ensures Count(Run(t, evs).typed, fn) == Count(t.typed, fn) + TypedIncreases(evs, fn)
    decreases |evs|
  {
    if evs != [] {
      assert forall i :: 0 <= i < |evs[1..]| ==> evs[1..][i] == evs[i + 1];
      CountersCount(Step(t, evs[0]), evs[1..], fn);
    }
  }

  /**
   * No event removes or decrements a counter: short of wrapping, every
   * counter is at least what it was, and every key stays.
   */
  lemma {:induction false} CountersNeverDecrease(t: Tables, evs: seq<Event>, fn: nat)
    requires forall i :: 0 <= i < |evs| ==> Possible(evs[i])
    requires Count(t.untyped, fn) + UntypedIncreases(evs, fn) < Buffers.SizeModulus
    requires Count(t.typed, fn) + TypedIncreases(evs, fn) < Buffers.SizeModulus
    ensures Count(Run(t, evs).untyped, fn) >= Count(t.untyped, fn)
    ensures Count(Run(t, evs).typed, fn) >= Count(t.typed, fn)
    ensures t.untyped.Keys <= Run(t, evs).untyped.Keys && t.typed.Keys <= Run(t, evs).typed.Keys
    ensures t.names.Keys <= Run(t, evs).names.Keys
    decreases |evs|
  {
    CountersCount(t, evs, fn);
    if evs != [] {
      assert forall i :: 0 <= i < |evs[1..]| ==> evs[1..][i] == evs[i + 1];
      CountersNeverDecrease(Step(t, evs[0]), evs[1..], fn);
    }
  }

  /** The name of `fn` after a sequence of events is the last one given to it, if any. */
  lemma {:induction false} LastNameWins(t: Tables, evs: seq<Event>, fn: nat, name: seq<byte>, len: nat)
    requires forall i :: 0 <= i < |evs| ==> Possible(evs[i])
    requires len <= |name|
    requires forall i :: 0 <= i < |evs| ==> !(evs[i].Named? && evs[i].fn == fn)
    ensures fn in Run(t, [Named(fn, name, len)] + evs).names
    ensures Run(t, [Named(fn, name, len)] + evs).names[fn] == name[..len]
    decreases |evs|
  {
    var t' := Step(t, Named(fn, name, len));
    assert ([Named(fn, name, len)] + evs)[1..] == evs;
    NamesKept(t', evs, fn);
  }

  /** Events that do not name `fn` leave its name alone. */
  lemma {:induction false} NamesKept(t: Tables, evs: seq<Event>, fn: nat)
    requires forall i :: 0 <= i < |evs| ==> Possible(evs[i])
    requires forall i :: 0 <= i < |evs| ==> !(evs[i].Named? && evs[i].fn == fn)
    ensures (fn in t.names) == (fn in Run(t, evs).names)
    ensures fn in t.names ==> Run(t, evs).names[fn] == t.names[fn]
    decreases |evs|
  {
    if evs != [] {
      assert forall i :: 0 <= i < |evs[1..]| ==> evs[1..][i] == evs[i + 1];
      NamesKept(Step(t, evs[0]), evs[1..], fn);
    }
  }

  /** The three global maps of `jstl::diag`. */
  class Counters {
    var untyped: map<nat, nat>
    var typed: map<nat, nat>
    var names: map<nat, seq<byte>>

    /** The tables as a value. */
    function Contents(): Tables
      reads this
    {
      Tables(untyped, typed, names)
    }

    /** Static initialisation: three empty maps. */
    constructor ()
      ensures untyped == map[] && typed == map[] && names == map[]
    {
      untyped, typed, names := map[], map[], map[];
    }

    /** `increase_untyped(function_ptr)`. */
    method IncreaseUntyped(fn: nat)
      modifies this
      ensures Contents() == Step(old(Contents()), UntypedIncrease(fn))
      ensures untyped == Increment(old(untyped), fn) && typed == old(typed) && names == old(names)
    {
      untyped := untyped[fn := (Count(untyped, fn) + 1) % Buffers.SizeModulus];
    }

    /** `increase_typed(function_ptr)`. */
    method IncreaseTyped(fn: nat)
      modifies this
      ensures Contents() == Step(old(Contents()), TypedIncrease(fn))
      ensures typed == Increment(old(typed), fn) && untyped == old(untyped) && names == old(names)
    {
      typed := typed[fn := (Count(typed, fn) + 1) % Buffers.SizeModulus];
    }

    /** `name(function_ptr, name, len)`: the first `len` bytes of `name`, replacing any earlier name. */
    method Name(fn: nat, name: seq<byte>, len: nat)
      requires len <= |name|
      modifies this
      ensures Contents() == Step(old(Contents()), Named(fn, name, len))
      ensures names == old(names)[fn := name[..len]] && untyped == old(untyped) && typed == old(typed)
    {
      names := names[fn := name[..len]];
    }
  }
}
