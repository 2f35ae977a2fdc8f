/**
 * The conversions of `js_type_info_t<T>`: `marshall` from a native value to
 * a boxed one, `unmarshall` back with the optional type check in front, and
 * `js_check_value`, which performs that check.  The container conversions
 * are templates over the element type `T`; here they take the element's
 * conversion as a parameter, convert the elements in index order and stop
 * at the first failure.
 */
module Conversion {
  import opened Errors
  import Tags
  import opened Values
  import opened Engines
  import opened Registry

  /**
   * `js_check_value`: the probe's own error is passed up, a match yields 0,
   * and a mismatch throws "Value is not of type '<expected>'" and yields
   * `js_pending_exception`.
   */
  function CheckValue(answer: Reply<bool>, expected: string): (o: Outcome<()>)
    ensures !o.Abort?
    ensures o.Status() == (if answer.Failed? then answer.code else if answer.value then 0 else PendingException)
    ensures o.Thrown? <==> answer == Done(false)
    ensures o.Thrown? ==> o.expected == expected
  {
    match answer
    case Failed(c) => Err(c)
    case Done(true) => Ok(())
    case Done(false) => Thrown(expected)
  }

  /** The check guard `g` performs on `v`, if any. */
  function Check(e: Engine, g: Guard, v: Value): Outcome<()> {
    match g
    case Unchecked => Ok(())
    case Checked(p, expected) => CheckValue(e.probe(p, v), expected)
  }

  /** `js_type_info_t<T>::unmarshall(env, value, result)`: the check when `checked`, then the read. */
  function Unmarshall(e: Engine, checked: bool, t: NativeType, v: Value): Outcome<Native>
    requires CanUnmarshall(t)
    decreases t, 1, 0
  {
    var guard := if checked then Check(e, GuardOf(t), v) else Ok(());
    if !guard.Ok? then guard.Cast() else Read(e, checked, t, v)
  }

  /**
   * What `unmarshall` does once any check has passed: the element-wise read
   * for a container, the boxed value itself for a handle, and the engine
   * getter otherwise.
   */
  function Read(e: Engine, checked: bool, t: NativeType, v: Value): Outcome<Native>
    requires CanUnmarshall(t)
    decreases t, 0, 0
  {
    if t.CArrayT? || t.StdArrayT? then AsList(FetchFixed(e.ops, ElementReader(e, checked, t.elem), t.n, v))
    else if t.VectorT? then AsList(FetchVector(e.ops, ElementReader(e, checked, t.elem), v))
    else if IsHandle(t) then Ok(Handle(v))
    else ReadScalar(e, t, v)
  }

  /** `js_type_info_t<T>::unmarshall` for the element type `T` of a container. */
  function ElementReader(e: Engine, checked: bool, el: NativeType): (r: Value --> Outcome<Native>)
    requires CanUnmarshall(el)
    ensures forall v :: r.requires(v) && r(v) == Unmarshall(e, checked, el, v)
    decreases el, 1, 1
  {
    (v: Value) requires CanUnmarshall(el) => Unmarshall(e, checked, el, v)
  }

  /**
   * The engine getter of a scalar or string type.  `char[N]` asserts that
   * the engine wrote all `N` bytes.
   */
  function ReadScalar(e: Engine, t: NativeType, v: Value): (o: Outcome<Native>)
    requires CanUnmarshall(t) && !t.CArrayT? && !t.StdArrayT? && !t.VectorT? && !IsHandle(t)
    ensures o.Ok? ==> Represents(t, o.value)
    ensures t.BoolT? ==> o == if e.ops.getBool(v).Done? then Ok(Bool(e.ops.getBool(v).value)) else Err(e.ops.getBool(v).code)
    ensures t.Int32T? ==> o == if e.ops.getInt32(v).Done? then Ok(Int(e.ops.getInt32(v).value)) else Err(e.ops.getInt32(v).code)
    ensures t.Uint32T? ==> o == if e.ops.getUint32(v).Done? then Ok(Int(e.ops.getUint32(v).value)) else Err(e.ops.getUint32(v).code)
    ensures t.Int64T? ==> o == if e.ops.getInt64(v).Done? then Ok(Int(e.ops.getInt64(v).value)) else Err(e.ops.getInt64(v).code)
    ensures t.DoubleT? ==> o == if e.ops.getDouble(v).Done? then Ok(Double(e.ops.getDouble(v).value)) else Err(e.ops.getDouble(v).code)
    ensures t.PointerT? ==> o == if e.ops.getExternal(v).Done? then Ok(Pointer(e.ops.getExternal(v).value)) else Err(e.ops.getExternal(v).code)
    ensures t.StdStringT? ==> o == if e.ops.getString(v).Done? then Ok(Bytes(e.ops.getString(v).value)) else Err(e.ops.getString(v).code)
    ensures t.CharArrayT? && e.ops.getString(v).Failed? ==> o == Err(e.ops.getString(v).code)
    ensures t.CharArrayT? && e.ops.getString(v).Done? ==>
              o == if |e.ops.getString(v).value| < t.n then Abort else Ok(Bytes(e.ops.getString(v).value[..t.n]))
  {
    match t
    case BoolT => (match e.ops.getBool(v) case Done(b) => Ok(Bool(b)) case Failed(c) => Err(c))
    case Int32T => (match e.ops.getInt32(v) case Done(i) => Ok(Int(i)) case Failed(c) => Err(c))
    case Uint32T => (match e.ops.getUint32(v) case Done(i) => Ok(Int(i)) case Failed(c) => Err(c))
    case Int64T => (match e.ops.getInt64(v) case Done(i) => Ok(Int(i)) case Failed(c) => Err(c))
    case DoubleT => (match e.ops.getDouble(v) case Done(d) => Ok(Double(d)) case Failed(c) => Err(c))
    case PointerT => (match e.ops.getExternal(v) case Done(a) => Ok(Pointer(a)) case Failed(c) => Err(c))
    case CharArrayT(n) =>
      (match e.ops.getString(v)
       case Done(s) => if |s| < n then Abort else Ok(Bytes(s[..n]))
       case Failed(c) => Err(c))
    case StdStringT => (match e.ops.getString(v) case Done(s) => Ok(Bytes(s)) case Failed(c) => Err(c))
  }

  /** The converted elements as the container that holds them. */
  function AsList(o: Outcome<seq<Native>>): (r: Outcome<Native>)
    ensures r.Ok? <==> o.Ok?
    ensures o.Ok? ==> r.value == List(o.value)
    ensures !o.Ok? ==> r == o.Cast()
  {
    if o.Ok? then Ok(List(o.value)) else o.Cast()
  }

  /**
   * The `unmarshall` of `T[N]` and `std::array<T, N>` after the check: fetch
   * up to `N` elements, assert there were `N`, convert each with `read`.
   */
  function FetchFixed<Y>(ops: Ops, read: Value --> Outcome<Y>, n: nat, v: Value): (o: Outcome<seq<Y>>)
    requires forall w :: read.requires(w)
    ensures o.Ok? ==> |o.value| == n
    ensures ops.getArrayElements(v, n).Failed? ==> o == Err(ops.getArrayElements(v, n).code)
    ensures ops.getArrayElements(v, n).Done? && |ops.getArrayElements(v, n).value| != n ==> o == Abort
    ensures ops.getArrayElements(v, n).Done? && |ops.getArrayElements(v, n).value| == n ==>
              o == ConvertAll(read, ops.getArrayElements(v, n).value)
  {
    match ops.getArrayElements(v, n)
    case Failed(c) => Err(c)
    case Done(vs) => if |vs| != n then Abort else ConvertAll(read, vs)
  }

  /**
   * The `unmarshall` of `std::vector<T>` after the check: ask for the
   * length, fetch that many elements, convert each with `read`.
   */
  function FetchVector<Y>(ops: Ops, read: Value --> Outcome<Y>, v: Value): (o: Outcome<seq<Y>>)
    requires forall w :: read.requires(w)
    ensures ops.getArrayLength(v).Failed? ==> o == Err(ops.getArrayLength(v).code)
    ensures ops.getArrayLength(v).Done? && ops.getArrayElements(v, ops.getArrayLength(v).value).Failed? ==>
              o == Err(ops.getArrayElements(v, ops.getArrayLength(v).value).code)
    ensures ops.getArrayLength(v).Done? && ops.getArrayElements(v, ops.getArrayLength(v).value).Done? ==>
              o == ConvertAll(read, ops.getArrayElements(v, ops.getArrayLength(v).value).value)
  {
    match ops.getArrayLength(v)
    case Failed(c) => Err(c)
    case Done(len) =>
      match ops.getArrayElements(v, len)
      case Failed(c) => Err(c)
      case Done(vs) => ConvertAll(read, vs)
  }

  /** The element loop of the container `unmarshall`s for elements of type `el`. */
  function UnmarshallAll(e: Engine, checked: bool, el: NativeType, vs: seq<Value>): Outcome<seq<Native>>
    requires CanUnmarshall(el)
  {
    ConvertAll(ElementReader(e, checked, el), vs)
  }

  /** `js_type_info_t<T>::marshall(env, value, result)` to a boxed value. */
  function Marshall(e: Engine, t: NativeType, x: Native): Outcome<Value>
    requires CanMarshall(t) && Represents(t, x)
    decreases t, 0, 0
  {
    if t.CArrayT? || t.StdArrayT? || t.VectorT? then
      StoreAt(e.ops, ElementWriter(e, t.elem), e.ops.createArray(|x.elements|), x.elements, 0)
    else if IsHandle(t) then Ok(x.v)
    else MarshallScalar(e, t, x)
  }

  /** `js_type_info_t<T>::marshall` for the element type `T` of a container. */
  function ElementWriter(e: Engine, el: NativeType): (w: Native --> Outcome<Value>)
    requires CanMarshall(el)
    ensures forall x | Represents(el, x) :: w.requires(x) && w(x) == Marshall(e, el, x)
    decreases el, 1, 1
  {
    (x: Native) requires CanMarshall(el) && Represents(el, x) => Marshall(e, el, x)
  }

  /** The engine constructor of a scalar or string type; the `char *` types stop at the first NUL. */
  function MarshallScalar(e: Engine, t: NativeType, x: Native): Outcome<Value>
    requires Represents(t, x) && !t.CArrayT? && !t.StdArrayT? && !t.VectorT? && !IsHandle(t)
  {
    match t
    case VoidT => FromReply(e.ops.getUndefined)
    case BoolT => FromReply(e.ops.createBool(x.b))
    case Int32T => FromReply(e.ops.createInt32(x.i))
    case Uint32T => FromReply(e.ops.createUint32(x.i))
    case Int64T => FromReply(e.ops.createInt64(x.i))
    case DoubleT => FromReply(e.ops.createDouble(x.bits))
    case PointerT => FromReply(e.ops.createExternal(x.address))
    case CharArrayT(_) => FromReply(e.ops.createString(x.s))
    case ConstCharArrayT(_) => FromReply(e.ops.createString(x.s))
    case CharPtrT => FromReply(e.ops.createString(CString(x.s)))
    case ConstCharPtrT => FromReply(e.ops.createString(CString(x.s)))
    case StdStringT => FromReply(e.ops.createString(x.s))
  }

  /**
   * The element loop of the container `marshall`s and of
   * `js_set_array_elements`: convert each element with `write`, then store
   * them all into `arr` from `offset`.  The containers create `arr` with
   * their own length and store from 0.
   */
  function StoreAt<X>(ops: Ops, write: X --> Outcome<Value>, arr: Value, xs: seq<X>, offset: nat): (o: Outcome<Value>)
    requires forall j :: 0 <= j < |xs| ==> write.requires(xs[j])
  {
    var all := ConvertAll(write, xs);
    if !all.Ok? then all.Cast() else FromReply(ops.setArrayElements(arr, all.value, offset))
  }

  /** The element loop of the container `marshall`s for elements of type `el`. */
  function MarshallAll(e: Engine, el: NativeType, xs: seq<Native>): Outcome<seq<Value>>
    requires CanMarshall(el) && forall j :: 0 <= j < |xs| ==> Represents(el, xs[j])
  {
    ConvertAll(ElementWriter(e, el), xs)
  }

  /**
   * The loop shared by every container conversion: convert `xs[0]`,
   * `xs[1]`, ... in turn, stop at the first failure and return it, or
   * return all the results.
   */
  function ConvertAll<X, Y>(convert: X --> Outcome<Y>, xs: seq<X>): (o: Outcome<seq<Y>>)
    requires forall j :: 0 <= j < |xs| ==> convert.requires(xs[j])
    ensures o.Ok? <==> forall j :: 0 <= j < |xs| ==> convert(xs[j]).Ok?
    ensures o.Ok? ==> |o.value| == |xs| && forall j :: 0 <= j < |xs| ==> o.value[j] == convert(xs[j]).value
    decreases |xs|
  {
    if xs == [] then Ok([])
    else
      var head := convert(xs[0]);
      if !head.Ok? then head.Cast()
      else
        var tail := ConvertAll(convert, xs[1..]);
        assert forall j :: 1 <= j < |xs| ==> xs[1..][j - 1] == xs[j];
        if !tail.Ok? then tail.Cast() else Ok([head.value] + tail.value)
  }

  /** A failed loop fails exactly as its first failing element does. */
  lemma {:induction false} ConvertAllFirstFailure<X, Y>(convert: X --> Outcome<Y>, xs: seq<X>, i: nat)
    requires forall j :: 0 <= j < |xs| ==> convert.requires(xs[j])
    requires i < |xs| && (forall j :: 0 <= j < i ==> convert(xs[j]).Ok?) && !convert(xs[i]).Ok?
    ensures ConvertAll(convert, xs) == convert(xs[i]).Cast()
    decreases i
  {
    if i > 0 {
      ConvertAllFirstFailure(convert, xs[1..], i - 1);
    }
  }

  /** A loop whose every element converts yields exactly the element results. */
  lemma ConvertAllPointwise<X, Y>(convert: X --> Outcome<Y>, xs: seq<X>, ys: seq<Y>)
    requires forall j :: 0 <= j < |xs| ==> convert.requires(xs[j])
    requires |ys| == |xs| && forall j :: 0 <= j < |xs| ==> convert(xs[j]) == Ok(ys[j])
    ensures ConvertAll(convert, xs) == Ok(ys)
  {
    assert ConvertAll(convert, xs).value == ys;
  }
}
