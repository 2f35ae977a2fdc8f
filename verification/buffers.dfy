/**
 * The length arithmetic of the array-buffer and typed-array helpers: a
 * buffer for `len` elements of `T` is requested as `len * sizeof(T)` bytes,
 * and a buffer's byte length is read back as a number of elements, with
 * assertions that it divides evenly or holds exactly one `T`.  The bytes
 * themselves are not modelled.
 */
module Buffers {
  import opened Errors
  import opened Values
  import Registry
  import Tags

  /** `SIZE_MAX + 1` for a 64-bit `size_t`: its arithmetic is modulo this. */
  const SizeModulus: nat := 0x1_0000_0000_0000_0000

  /** A `size_t` value. */
  predicate InSize(n: int) {
    0 <= n < SizeModulus
  }

  /** The status the corrected request reports for a byte count `size_t` cannot hold. */
  const Overflow: ErrorCode := -3

  /** The engine calls on buffers. */
  datatype BufferOps = BufferOps(
    createArrayBuffer: nat -> Reply<Value>,         // js_create_arraybuffer(env, bytes, &data, &result)
    arrayBufferLength: Value -> Reply<nat>,         // the byte length js_get_arraybuffer_info reports
    createTypedArray: (nat, nat, Value) -> Reply<Value>, // js_create_typedarray(env, type, len, arraybuffer, 0, &result), given sizeof(T)
    typedArrayLength: Value -> Reply<nat>           // the length js_get_typedarray_info reports
  )

  /**
   * Buffers of any `size_t` byte count can be created and report that byte
   * count.  A typed array of `len` elements of `size` bytes can be created
   * over a buffer exactly when the buffer holds at least `len * size` bytes
   * (the range check of the `TypedArray` constructor), and it reports the
   * length it was created with.
   */
  ghost predicate BuffersFaithful(o: BufferOps) {
    && (forall bytes: nat | InSize(bytes) :: o.createArrayBuffer(bytes).Done?)
    && (forall bytes: nat | InSize(bytes) && o.createArrayBuffer(bytes).Done? ::
          o.arrayBufferLength(o.createArrayBuffer(bytes).value) == Done(bytes))
    && (forall len: nat, size: nat, b: Value ::
          o.createTypedArray(len, size, b).Done? <==>
          o.arrayBufferLength(b).Done? && len * size <= o.arrayBufferLength(b).value)
    && (forall len: nat, size: nat, b: Value | o.createTypedArray(len, size, b).Done? ::
          o.typedArrayLength(o.createTypedArray(len, size, b).value) == Done(len))
  }

  /** A concrete engine with that behaviour: a buffer is known by its byte count, a typed array by its length. */
  function ReferenceBuffers(): BufferOps {
    BufferOps(
      (bytes: nat) => Done(ArrayBuffer(bytes)),
      (v: Value) => if v.ArrayBuffer? then Done(v.id) else Failed(-2),
      (len: nat, size: nat, b: Value) => if b.ArrayBuffer? && len * size <= b.id then Done(TypedArray(Tags.U8, len)) else Failed(-2),
      (v: Value) => if v.TypedArray? then Done(v.id) else Failed(-2))
  }

  /** The reference buffers are faithful, so `BuffersFaithful` is not an empty assumption. */
  lemma ReferenceBuffersFaithful()
    ensures BuffersFaithful(ReferenceBuffers())
  {
  }

  /** A `std::span<T>` over a buffer: the buffer and the number of elements it claims. */
  datatype View = View(buffer: Value, count: nat)

  /** `len * sizeof(T)` computed in `size_t`, as the source writes it: modulo `SizeModulus`. */
  function WrappedBytes(len: nat, size: nat): (b: nat)
    ensures InSize(b)
    ensures len * size < SizeModulus ==> b == len * size
  {
    (len * size) % SizeModulus
  }

  /**
   * `js_create_arraybuffer<T>(env, len, view, result)` as written: request
   * `len * sizeof(T)` bytes, wrapping, and view them as `len` elements.
   */
  function CreateArrayBufferAsWritten(o: BufferOps, len: nat, size: nat): (r: Outcome<View>)
    ensures r.Ok? || r.Err?
    ensures r.Err? <==> o.createArrayBuffer(WrappedBytes(len, size)).Failed?
    ensures r.Err? ==> r.code == o.createArrayBuffer(WrappedBytes(len, size)).code
    ensures r.Ok? ==> r.value.buffer == o.createArrayBuffer(WrappedBytes(len, size)).value
    ensures r.Ok? ==> r.value.count == len
  {
    match o.createArrayBuffer(WrappedBytes(len, size))
    case Failed(c) => Err(c)
    case Done(b) => Ok(View(b, len))
  }

  /**
   * `js_create_arraybuffer<T>(env, len, view, result)` with the product
   * checked: a byte count `size_t` cannot hold is refused instead of
   * wrapping.
   */
  function CreateArrayBuffer(o: BufferOps, len: nat, size: nat): (r: Outcome<View>)
    ensures !InSize(len * size) ==> r == Err(Overflow)
    ensures InSize(len * size) ==> r == CreateArrayBufferAsWritten(o, len, size)
  {
    if !InSize(len * size) then Err(Overflow)
    else match o.createArrayBuffer(len * size)
      case Failed(c) => Err(c)
      case Done(b) => Ok(View(b, len))
  }

  /** `js_create_arraybuffer(env, data, result)` for one `T`: a buffer of `sizeof(T)` bytes. */
  function CreateArrayBufferObject(o: BufferOps, size: nat): Outcome<Value>
    requires InSize(size)
  {
    FromReply(o.createArrayBuffer(size))
  }

  /**
   * `js_get_arraybuffer_info<T>(env, arraybuffer, data, len)` and its span
   * form: the engine's error is passed up, a byte length that is not a
   * whole number of `T`s fails the assertion, and otherwise the number of
   * elements is reported.
   */
  function ArrayBufferCount(o: BufferOps, v: Value, size: nat): (r: Outcome<nat>)
    requires size > 0
    ensures r.Ok? || r.Err? || r.Abort?
    ensures r.Err? <==> o.arrayBufferLength(v).Failed?
    ensures r.Err? ==> r.code == o.arrayBufferLength(v).code
    ensures r.Abort? <==> o.arrayBufferLength(v).Done? && o.arrayBufferLength(v).value % size != 0
    ensures r.Ok? ==> o.arrayBufferLength(v) == Done(r.value * size)
  {
    match o.arrayBufferLength(v)
    case Failed(c) => Err(c)
    case Done(len) => if len % size != 0 then Abort else Ok(len / size)
  }

  /** `js_get_arraybuffer_info<T>(env, arraybuffer, data)`: the buffer must hold exactly one `T`. */
  function ArrayBufferObject(o: BufferOps, v: Value, size: nat): (r: Outcome<()>)
    ensures r.Ok? <==> o.arrayBufferLength(v) == Done(size)
    ensures r.Abort? <==> o.arrayBufferLength(v).Done? && o.arrayBufferLength(v).value != size
    ensures r.Err? <==> o.arrayBufferLength(v).Failed?
    ensures r.Err? ==> r.code == o.arrayBufferLength(v).code
  {
    match o.arrayBufferLength(v)
    case Failed(c) => Err(c)
    case Done(len) => if len != size then Abort else Ok(())
  }

  /**
   * `js_create_typedarray<T>(env, len, result)` and its data and span forms
   * as written: a buffer requested for `len` elements of `T` with the
   * wrapping product, then a typed array of length `len` over it.
   */
  function CreateTypedArrayAsWritten(o: BufferOps, len: nat, size: nat): (r: Outcome<Value>)
    ensures r.Ok? || r.Err?
    ensures o.createArrayBuffer(WrappedBytes(len, size)).Failed? ==> r == Err(o.createArrayBuffer(WrappedBytes(len, size)).code)
    ensures o.createArrayBuffer(WrappedBytes(len, size)).Done? ==>
              var typed := o.createTypedArray(len, size, o.createArrayBuffer(WrappedBytes(len, size)).value);
              (r.Ok? <==> typed.Done?) && (r.Ok? ==> r.value == typed.value) && (r.Err? ==> r.code == typed.code)
  {
    var buffer := CreateArrayBufferAsWritten(o, len, size);
    if !buffer.Ok? then buffer.Cast()
    else FromReply(o.createTypedArray(len, size, buffer.value.buffer))
  }

  /**
   * `js_create_typedarray<T>(env, len, result)` over the corrected buffer
   * request: a byte count `size_t` cannot hold is refused, and otherwise
   * the request is the one as written.
   */
  function CreateTypedArray(o: BufferOps, len: nat, size: nat): (r: Outcome<Value>)
    ensures !InSize(len * size) ==> r == Err(Overflow)
    ensures InSize(len * size) ==> r == CreateTypedArrayAsWritten(o, len, size)
  {
    var buffer := CreateArrayBuffer(o, len, size);
    if !buffer.Ok? then buffer.Cast()
    else FromReply(o.createTypedArray(len, size, buffer.value.buffer))
  }

  /**
   * `js_create_typedarray(env, data, result)` for one `T`: a buffer of
   * `sizeof(T)` bytes viewed as a `uint8array` of `sizeof(T)` elements.
   */
  function CreateTypedArrayObject(o: BufferOps, size: nat): Outcome<Value>
    requires InSize(size)
  {
    var buffer := CreateArrayBufferObject(o, size);
    if !buffer.Ok? then buffer.Cast()
    else FromReply(o.createTypedArray(size, 1, buffer.value))
  }

  /** `js_get_typedarray_info(env, typedarray, data)` for one `T`: the `uint8array` must hold exactly `sizeof(T)` bytes. */
  function TypedArrayObject(o: BufferOps, v: Value, size: nat): (r: Outcome<()>)
    ensures r.Ok? <==> o.typedArrayLength(v) == Done(size)
    ensures r.Abort? <==> o.typedArrayLength(v).Done? && o.typedArrayLength(v).value != size
    ensures r.Err? <==> o.typedArrayLength(v).Failed?
    ensures r.Err? ==> r.code == o.typedArrayLength(v).code
  {
    match o.typedArrayLength(v)
    case Failed(c) => Err(c)
    case Done(len) => if len != size then Abort else Ok(())
  }

  /** A product divided by one of its factors gives back the other, with nothing left over. */
  lemma ProductDivides(len: nat, size: nat)
    requires size > 0
    ensures (len * size) % size == 0 && (len * size) / size == len
  {
    var q, r := (len * size) / size, (len * size) % size;
    if q > len {
      Apart(q, len, size);
    } else if len > q {
      Apart(len, q, size);
    }
  }

  /** Multiples of `size` for different factors are at least `size` apart. */
  lemma Apart(a: int, b: int, size: nat)
    requires a > b && size > 0
    ensures a * size >= b * size + size
  {
    var d := a - b - 1;
    assert a * size == b * size + d * size + size;
    assert d * size >= 0;
  }

  /**
   * Length round trip: a buffer created for `len` elements of `T` whose byte
   * count fits in `size_t` is read back as `len` elements, as many as its
   * view claims.
   */
  lemma CreateThenCount(o: BufferOps, len: nat, size: nat)
    requires BuffersFaithful(o) && size > 0 && InSize(len * size)
    ensures CreateArrayBuffer(o, len, size).Ok?
    ensures ArrayBufferCount(o, CreateArrayBuffer(o, len, size).value.buffer, size) == Ok(len)
    ensures CreateArrayBuffer(o, len, size).value.count == len
  {
    ProductDivides(len, size);
  }

  /** A buffer created for one `T`, and a `uint8array` created over one, pass the single-object checks. */
  lemma CreateThenCheckObject(o: BufferOps, size: nat)
    requires BuffersFaithful(o) && size > 0 && InSize(size)
    ensures CreateArrayBufferObject(o, size).Ok? && ArrayBufferObject(o, CreateArrayBufferObject(o, size).value, size) == Ok(())
    ensures CreateTypedArrayObject(o, size).Ok? && TypedArrayObject(o, CreateTypedArrayObject(o, size).value, size) == Ok(())
  {
  }

  /** A typed array created for `len` elements whose byte count fits in `size_t` reports length `len`. */
  lemma CreateTypedArrayLength(o: BufferOps, len: nat, size: nat)
    requires BuffersFaithful(o) && InSize(len * size)
    ensures CreateTypedArray(o, len, size).Ok?
    ensures o.typedArrayLength(CreateTypedArray(o, len, size).value) == Done(len)
  {
  }

  /**
   * The wrapped request is caught for typed arrays: the buffer it yields is
   * too small for `len` elements exactly when the product wraps, so the
   * engine's range check refuses the typed array, and the as-written
   * creation succeeds exactly when the product fits in `size_t`.  Either
   * way a typed array that is created has length `len`.
   */
  lemma TypedArrayAsWrittenSucceeds(o: BufferOps, len: nat, size: nat)
    requires BuffersFaithful(o)
    ensures CreateTypedArrayAsWritten(o, len, size).Ok? <==> InSize(len * size)
    ensures CreateTypedArrayAsWritten(o, len, size).Ok? ==>
            o.typedArrayLength(CreateTypedArrayAsWritten(o, len, size).value) == Done(len)
  {
    var p := len * size;
    assert WrappedBytes(len, size) == p % SizeModulus;
    assert p % SizeModulus < SizeModulus;
    if InSize(p) {
      assert p % SizeModulus == p;
    }
  }

  /**
   * `2^61` eight-byte elements: as written, the engine is asked for a typed
   * array of `2^61` elements over a buffer of 0 bytes and refuses it; the
   * corrected request refuses the byte count itself.
   */
  lemma WrappedTypedArrayRefused(o: BufferOps)
    requires BuffersFaithful(o)
    ensures var b := CreateArrayBufferAsWritten(o, 0x2000_0000_0000_0000, 8);
            && b.Ok? && o.arrayBufferLength(b.value.buffer) == Done(0)
            && o.createTypedArray(0x2000_0000_0000_0000, 8, b.value.buffer).Failed?
    ensures CreateTypedArrayAsWritten(o, 0x2000_0000_0000_0000, 8).Err?
    ensures CreateTypedArray(o, 0x2000_0000_0000_0000, 8) == Err(Overflow)
  {
    assert WrappedBytes(0x2000_0000_0000_0000, 8) == 0;
  }

  /** The element sizes of typed arrays are small enough that one element never overflows. */
  lemma ElementSizeFits(e: Tags.ElementType)
    ensures 0 < Registry.ElementSize(e) && InSize(Registry.ElementSize(e))
  {
  }

  /**
   * The unchecked product loses the length: `2^61` eight-byte elements ask
   * for `0` bytes, so the view claims `2^61` elements of a buffer that holds
   * none.
   */
  lemma WrappedRequestLosesLength(o: BufferOps)
    requires BuffersFaithful(o)
    ensures var r := CreateArrayBufferAsWritten(o, 0x2000_0000_0000_0000, 8);
            && r.Ok? && r.value.count == 0x2000_0000_0000_0000
            && ArrayBufferCount(o, r.value.buffer, 8) == Ok(0)
  {
    assert WrappedBytes(0x2000_0000_0000_0000, 8) == 0;
  }
}
