/**
 * The embedding engine (`js.h`) as the library sees it: a bundle of foreign
 * calls, each of which either yields its out-parameter or fails with a
 * negative status.  Nothing is assumed about them unless a lemma asks for a
 * `Faithful` engine; `Reference()` is one such engine.
 */
module Engines {
  import opened Errors
  import Tags
  import opened Values

  /** The value getters and constructors the registry calls. */
  datatype Ops = Ops(
    getBool: Value -> Reply<bool>,                            // js_get_value_bool
    getInt32: Value -> Reply<Tags.int32>,                     // js_get_value_int32
    getUint32: Value -> Reply<Tags.uint32>,                   // js_get_value_uint32
    getInt64: Value -> Reply<Tags.int64>,                     // js_get_value_int64
    getDouble: Value -> Reply<nat>,                           // js_get_value_double
    getExternal: Value -> Reply<nat>,                         // js_get_value_external
    getString: Value -> Reply<seq<byte>>,                     // js_get_value_string_utf8
    getUndefined: Reply<Value>,                               // js_get_undefined
    createBool: bool -> Reply<Value>,                         // js_get_boolean
    createInt32: Tags.int32 -> Reply<Value>,                  // js_create_int32
    createUint32: Tags.uint32 -> Reply<Value>,                // js_create_uint32
    createInt64: Tags.int64 -> Reply<Value>,                  // js_create_int64
    createDouble: nat -> Reply<Value>,                        // js_create_double
    createExternal: nat -> Reply<Value>,                      // js_create_external
    createString: seq<byte> -> Reply<Value>,                  // js_create_string_utf8
    getArrayLength: Value -> Reply<nat>,                      // js_get_array_length
    getArrayElements: (Value, nat) -> Reply<seq<Value>>,      // js_get_array_elements, given a capacity
    createArray: nat -> Value,                                // js_create_array_with_length (asserted to succeed)
    setArrayElements: (Value, seq<Value>, nat) -> Reply<Value> // js_set_array_elements: the updated array
  )

  /** An engine: its type probes and its other calls, kept apart. */
  datatype Engine = Engine(probe: (Tags.Probe, Value) -> Reply<bool>, ops: Ops)

  /** `2^53`: every integer of at most this magnitude is held exactly by a double, so it survives `js_create_int64`. */
  const SafeInteger: int := 0x20_0000_0000_0000

  /** `es` with `vs` written from index `offset` on, growing it where needed. */
  function Overwrite(es: seq<Value>, vs: seq<Value>, offset: nat): (r: seq<Value>)
    requires offset <= |es|
    ensures |r| == if offset + |vs| <= |es| then |es| else offset + |vs|
    ensures forall i :: 0 <= i < |vs| ==> r[offset + i] == vs[i]
    ensures forall i :: 0 <= i < offset ==> r[i] == es[i]
    ensures forall i :: offset + |vs| <= i < |es| ==> r[i] == es[i]
  {
    es[..offset] + vs + if offset + |vs| <= |es| then es[offset + |vs|..] else []
  }

  /** The elements an engine array of length `n` holds right after `js_create_array_with_length`. */
  function Holes(n: nat): (r: seq<Value>)
    ensures |r| == n && forall i :: 0 <= i < n ==> r[i] == Undefined
  {
    seq(n, _ => Undefined)
  }

  /** Probes answer by the value's kind and never fail. */
  ghost predicate ProbesFaithful(e: Engine) {
    forall p, v :: e.probe(p, v) == Done(Matches(p, v))
  }

  /** Each scalar getter inverts its constructor. */
  ghost predicate ScalarsFaithful(o: Ops) {
    && (forall b :: o.createBool(b) == Done(Boolean(b)))
    && (forall b :: o.getBool(Boolean(b)) == Done(b))
    && (forall i: Tags.int32 :: o.createInt32(i) == Done(Number(Integral(i))))
    && (forall i: Tags.int32 :: o.getInt32(Number(Integral(i))) == Done(i))
    && (forall i: Tags.uint32 :: o.createUint32(i) == Done(Number(Integral(i))))
    && (forall i: Tags.uint32 :: o.getUint32(Number(Integral(i))) == Done(i))
    && (forall i: Tags.int64 :: -SafeInteger <= i <= SafeInteger ==> o.createInt64(i) == Done(Number(Integral(i))))
    && (forall i: Tags.int64 :: o.getInt64(Number(Integral(i))) == Done(i))
    && (forall d: nat :: o.createDouble(d) == Done(Number(Fractional(d))))
    && (forall d: nat :: o.getDouble(Number(Fractional(d))) == Done(d))
    && (forall a: nat :: o.createExternal(a) == Done(External(a)))
    && (forall a: nat :: o.getExternal(External(a)) == Done(a))
    && (forall s :: o.createString(s) == Done(String(s)))
    && (forall s :: o.getString(String(s)) == Done(s))
    && o.getUndefined == Done(Undefined)
  }

  /** Arrays report their length, hand out their elements up to a capacity, and store what is set. */
  ghost predicate ArraysFaithful(o: Ops) {
    && (forall es :: o.getArrayLength(Array(es)) == Done(|es|))
    && (forall es, cap: nat :: o.getArrayElements(Array(es), cap) == Done(if cap < |es| then es[..cap] else es))
    && (forall n: nat :: o.createArray(n) == Array(Holes(n)))
    && (forall es, vs, offset: nat | offset <= |es| ::
          o.setArrayElements(Array(es), vs, offset) == Done(Array(Overwrite(es, vs, offset))))
  }

  /** An engine whose calls all behave as documented. */
  ghost predicate Faithful(e: Engine) {
    ProbesFaithful(e) && ScalarsFaithful(e.ops) && ArraysFaithful(e.ops)
  }

  /** The status the reference engine reports for a value of the wrong kind. */
  const InvalidArgument: ErrorCode := -2

  /** A concrete engine with the documented behaviour. */
  function Reference(): Engine {
    Engine(
      (p: Tags.Probe, v: Value) => Done(Matches(p, v)),
      Ops(
        (v: Value) => if v.Boolean? then Done(v.b) else Failed(InvalidArgument),
        (v: Value) => if v.Number? && v.n.Integral? && InInt32(v.n.i) then Done(v.n.i as Tags.int32) else Failed(InvalidArgument),
        (v: Value) => if v.Number? && v.n.Integral? && InUint32(v.n.i) then Done(v.n.i as Tags.uint32) else Failed(InvalidArgument),
        (v: Value) => if v.Number? && v.n.Integral? && -0x8000_0000_0000_0000 <= v.n.i < 0x8000_0000_0000_0000
             then Done(v.n.i as Tags.int64) else Failed(InvalidArgument),
        (v: Value) => if v.Number? && v.n.Fractional? then Done(v.n.bits) else Failed(InvalidArgument),
        (v: Value) => if v.External? then Done(v.address) else Failed(InvalidArgument),
        (v: Value) => if v.String? then Done(v.bytes) else Failed(InvalidArgument),
        Done(Undefined),
        (b: bool) => Done(Boolean(b)),
        (i: Tags.int32) => Done(Number(Integral(i))),
        (i: Tags.uint32) => Done(Number(Integral(i))),
        (i: Tags.int64) => Done(Number(Integral(i))),
        (d: nat) => Done(Number(Fractional(d))),
        (a: nat) => Done(External(a)),
        (s: seq<byte>) => Done(String(s)),
        (v: Value) => if v.Array? then Done(|v.elements|) else Failed(InvalidArgument),
        (v: Value, cap: nat) => if v.Array? then Done(if cap < |v.elements| then v.elements[..cap] else v.elements)
                    else Failed(InvalidArgument),
        (n: nat) => Array(Holes(n)),
        (v: Value, vs: seq<Value>, offset: nat) => if v.Array? && offset <= |v.elements| then Done(Array(Overwrite(v.elements, vs, offset)))
                           else Failed(InvalidArgument)))
  }

  lemma ReferenceProbesFaithful()
    ensures ProbesFaithful(Reference())
  {
  }

  lemma ReferenceScalarsFaithful()
    ensures ScalarsFaithful(Reference().ops)
  {
  }

  lemma ReferenceArraysFaithful()
    ensures ArraysFaithful(Reference().ops)
  {
  }

  /** The reference engine is faithful, so `Faithful` is not an empty assumption. */
  lemma ReferenceIsFaithful()
    ensures Faithful(Reference())
  {
    ReferenceProbesFaithful();
    ReferenceScalarsFaithful();
    ReferenceArraysFaithful();
  }
}
