/**
 * The type registry: for every native type the library converts, the tag it
 * announces in a call-signature descriptor (`js_type_info_t<T>::signature`),
 * the probe and label its checked unmarshall uses, and which directions of
 * conversion exist.  For typed-array element types, the engine's array kind,
 * the label and the element size (`js_typedarray_info_t<T>`).
 */
module Registry {
  import Tags
  import opened Values

  /**
   * The native types `js_type_info_t` is specialised for.  `T *` is
   * `PointerT`; `T[N]`, `std::array<T, N>` and `std::vector<T>` are the
   * three containers.
   */
  datatype NativeType =
    | VoidT | BoolT | Int32T | Uint32T | Int64T | DoubleT
    | BigIntT | StringT | SymbolT | ObjectT | ArrayT | ArrayBufferT
    | TypedArrayT(element: Tags.ElementType)
    | ReceiverT | FunctionT | ExternalT | PointerT
    | CharArrayT(n: nat) | ConstCharArrayT(n: nat) | CharPtrT | ConstCharPtrT | StdStringT
    | CArrayT(elem: NativeType, n: nat) | StdArrayT(elem: NativeType, n: nat) | VectorT(elem: NativeType)

  /** `js_type_info_t<T>::signature`. */
  function Signature(t: NativeType): Tags.Tag {
    match t
    case VoidT => Tags.Undefined
    case BoolT => Tags.Boolean
    case Int32T => Tags.Int32
    case Uint32T => Tags.Uint32
    case Int64T => Tags.Int64
    case DoubleT => Tags.Float64
    case BigIntT => Tags.BigInt
    case StringT => Tags.String
    case SymbolT => Tags.Symbol
    case FunctionT => Tags.Function
    case ExternalT => Tags.External
    case PointerT => Tags.External
    case CharArrayT(_) => Tags.String
    case ConstCharArrayT(_) => Tags.String
    case CharPtrT => Tags.String
    case ConstCharPtrT => Tags.String
    case StdStringT => Tags.String
    case _ => Tags.Object
  }

  /**
   * The signature table read backwards: which native types announce each
   * tag.  Strings, externals and objects are each announced by a family of
   * types; every other tag by exactly one.
   */
  lemma SignatureClasses(t: NativeType)
    ensures Signature(t) == Tags.Undefined <==> t == VoidT
    ensures Signature(t) == Tags.Boolean <==> t == BoolT
    ensures Signature(t) == Tags.Int32 <==> t == Int32T
    ensures Signature(t) == Tags.Uint32 <==> t == Uint32T
    ensures Signature(t) == Tags.Int64 <==> t == Int64T
    ensures Signature(t) == Tags.Float64 <==> t == DoubleT
    ensures Signature(t) == Tags.BigInt <==> t == BigIntT
    ensures Signature(t) == Tags.Symbol <==> t == SymbolT
    ensures Signature(t) == Tags.Function <==> t == FunctionT
    ensures Signature(t) == Tags.String <==>
              t.StringT? || t.CharArrayT? || t.ConstCharArrayT? || t.CharPtrT? || t.ConstCharPtrT? || t.StdStringT?
    ensures Signature(t) == Tags.External <==> t.ExternalT? || t.PointerT?
    ensures Signature(t) == Tags.Object <==>
              t.ObjectT? || t.ArrayT? || t.ArrayBufferT? || t.TypedArrayT? || t.ReceiverT?
              || t.CArrayT? || t.StdArrayT? || t.VectorT?
  {
  }

  /** Whether `t` is one of the handle wrappers, converted by passing the boxed value through. */
  predicate IsHandle(t: NativeType) {
    t.BigIntT? || t.StringT? || t.SymbolT? || t.ObjectT? || t.ArrayT? || t.ArrayBufferT?
    || t.TypedArrayT? || t.ReceiverT? || t.FunctionT? || t.ExternalT?
  }

  /**
   * Whether `js_type_info_t<T>::type` is `T` itself, so that typed callbacks
   * receive and return it without any engine call.  For every other type it
   * is `js_value_t *`.
   */
  predicate Direct(t: NativeType) {
    t.BoolT? || t.Int32T? || t.Uint32T? || t.Int64T? || t.DoubleT? || t.PointerT?
  }

  /** Whether `js_type_info_t<T>` has a `marshall` to `js_value_t *`. */
  predicate CanMarshall(t: NativeType) {
    match t
    case FunctionT => false
    case CArrayT(el, _) => el != VoidT && CanMarshall(el)
    case StdArrayT(el, _) => el != VoidT && CanMarshall(el)
    case VectorT(el) => el != VoidT && CanMarshall(el)
    case _ => true
  }

  /** Whether `js_type_info_t<T>` has an `unmarshall` from `js_value_t *`. */
  predicate CanUnmarshall(t: NativeType) {
    match t
    case VoidT => false
    case ConstCharArrayT(_) => false
    case CharPtrT => false
    case ConstCharPtrT => false
    case CArrayT(el, _) => CanUnmarshall(el)
    case StdArrayT(el, _) => CanUnmarshall(el)
    case VectorT(el) => CanUnmarshall(el)
    case _ => true
  }

  /** `js_typedarray_info_t<T>::type`. */
  function ArrayKind(e: Tags.ElementType): Tags.TypedArrayKind {
    match e
    case I8 => Tags.Int8Array
    case U8 => Tags.Uint8Array
    case I16 => Tags.Int16Array
    case U16 => Tags.Uint16Array
    case I32 => Tags.Int32Array
    case U32 => Tags.Uint32Array
    case I64 => Tags.BigInt64Array
    case U64 => Tags.BigUint64Array
    case F32 => Tags.Float32Array
    case F64 => Tags.Float64Array
  }

  /** `js_typedarray_info_t<T>::label`. */
  function ArrayLabel(e: Tags.ElementType): string {
    match e
    case I8 => "int8array"
    case U8 => "uint8array"
    case I16 => "int16array"
    case U16 => "uint16array"
    case I32 => "int32array"
    case U32 => "uint32array"
    case I64 => "bigint64array"
    case U64 => "biguint64array"
    case F32 => "float32array"
    case F64 => "float64array"
  }

  /** `sizeof(T)` for the element types. */
  function ElementSize(e: Tags.ElementType): nat {
    match e
    case I8 => 1
    case U8 => 1
    case I16 => 2
    case U16 => 2
    case I32 => 4
    case U32 => 4
    case I64 => 8
    case U64 => 8
    case F32 => 4
    case F64 => 8
  }

  /** The typed-array table is one-to-one: no two element types share an array kind or a label. */
  lemma TypedArrayInfoInjective(a: Tags.ElementType, b: Tags.ElementType)
    ensures ArrayKind(a) == ArrayKind(b) <==> a == b
    ensures ArrayLabel(a) == ArrayLabel(b) <==> a == b
    ensures ElementSize(a) in {1, 2, 4, 8}
  {
  }

  /** What a checked `unmarshall` does before reading: nothing, or a probe with the label of its type error. */
  datatype Guard = Unchecked | Checked(probe: Tags.Probe, expected: string)

  /** The `js_check_value<probe>(env, value, label)` each `unmarshall` runs when `checked`. */
  function GuardOf(t: NativeType): Guard {
    match t
    case BoolT => Checked(Tags.IsBoolean, "boolean")
    case Int32T => Checked(Tags.IsInt32, "int32")
    case Uint32T => Checked(Tags.IsUint32, "uint32")
    case Int64T => Checked(Tags.IsNumber, "int64")
    case DoubleT => Checked(Tags.IsNumber, "double")
    case BigIntT => Checked(Tags.IsBigInt, "bigint")
    case StringT => Checked(Tags.IsString, "string")
    case SymbolT => Checked(Tags.IsSymbol, "symbol")
    case ObjectT => Checked(Tags.IsObject, "object")
    case ArrayT => Checked(Tags.IsArray, "array")
    case ArrayBufferT => Checked(Tags.IsArrayBuffer, "arraybuffer")
    case TypedArrayT(e) => Checked(Tags.IsTypedArray(e), ArrayLabel(e))
    case FunctionT => Checked(Tags.IsFunction, "function")
    case ExternalT => Checked(Tags.IsExternal, "external")
    case PointerT => Checked(Tags.IsExternal, "external")
    case CharArrayT(_) => Checked(Tags.IsString, "string")
    case StdStringT => Checked(Tags.IsString, "string")
    case CArrayT(_, _) => Checked(Tags.IsArray, "array")
    case StdArrayT(_, _) => Checked(Tags.IsArray, "array")
    case VectorT(_) => Checked(Tags.IsArray, "array")
    case _ => Unchecked
  }

  /** Of all the types that can be unmarshalled, the receiver is the only one never checked. */
  lemma OnlyReceiverUnchecked(t: NativeType)
    requires CanUnmarshall(t)
    ensures GuardOf(t).Unchecked? <==> t == ReceiverT
  {
  }

  /**
   * The check agrees with the descriptor: a value that passes the probe of
   * `t` is of the kind `Signature(t)` announces.
   */
  lemma GuardImpliesSignature(t: NativeType, v: Value)
    requires GuardOf(t).Checked? && Matches(GuardOf(t).probe, v)
    ensures Conforms(Signature(t), v)
  {
  }

  /** The bytes of a C string: everything before its first NUL. */
  function CString(s: seq<byte>): (r: seq<byte>)
    ensures 0 !in r
    ensures r <= s
    ensures |r| < |s| ==> s[|r|] == 0
  {
    if s == [] || s[0] == 0 then [] else [s[0]] + CString(s[1..])
  }

  /** The native values that are of type `t`. */
  predicate Represents(t: NativeType, x: Native) {
    match t
    case VoidT => x == Void
    case BoolT => x.Bool?
    case Int32T => x.Int? && InInt32(x.i)
    case Uint32T => x.Int? && InUint32(x.i)
    case Int64T => x.Int? && -0x8000_0000_0000_0000 <= x.i < 0x8000_0000_0000_0000
    case DoubleT => x.Double?
    case PointerT => x.Pointer?
    case CharArrayT(n) => x.Bytes? && |x.s| == n
    case ConstCharArrayT(n) => x.Bytes? && |x.s| == n
    case CharPtrT => x.Bytes? && 0 in x.s
    case ConstCharPtrT => x.Bytes? && 0 in x.s
    case StdStringT => x.Bytes?
    case CArrayT(el, n) => x.List? && |x.elements| == n && forall j :: 0 <= j < |x.elements| ==> Represents(el, x.elements[j])
    case StdArrayT(el, n) => x.List? && |x.elements| == n && forall j :: 0 <= j < |x.elements| ==> Represents(el, x.elements[j])
    case VectorT(el) => x.List? && forall j :: 0 <= j < |x.elements| ==> Represents(el, x.elements[j])
    case _ => x.Handle?
  }

  /**
   * The value an element of type `t` holds after `std::vector::resize` grows
   * the vector: value-initialised, with a handle wrapper's `value` null.
   */
  function Default(t: NativeType): Native
    requires CanUnmarshall(t)
  {
    match t
    case BoolT => Bool(false)
    case Int32T => Int(0)
    case Uint32T => Int(0)
    case Int64T => Int(0)
    case DoubleT => Double(0)
    case PointerT => Pointer(0)
    case CharArrayT(n) => Bytes(seq(n, _ => 0))
    case StdStringT => Bytes([])
    case CArrayT(el, n) => List(seq(n, _ => Default(el)))
    case StdArrayT(el, n) => List(seq(n, _ => Default(el)))
    case VectorT(_) => List([])
    case _ => Null
  }

  /** Whether no handle wrapper occurs in `t`, even as an element. */
  predicate HandleFree(t: NativeType) {
    match t
    case CArrayT(el, _) => HandleFree(el)
    case StdArrayT(el, _) => HandleFree(el)
    case VectorT(el) => HandleFree(el)
    case _ => !IsHandle(t)
  }

  /**
   * Value-initialisation yields a value of the type when no handle occurs in
   * it; a handle wrapper is left null, which no handle type represents.
   */
  lemma {:induction false} DefaultRepresents(t: NativeType)
    requires CanUnmarshall(t)
    ensures HandleFree(t) ==> Represents(t, Default(t))
    ensures IsHandle(t) ==> !Represents(t, Default(t))
  {
    match t
    case CArrayT(el, n) =>
      if n > 0 {
        DefaultRepresents(el);
        assert forall j :: 0 <= j < |Default(t).elements| ==> Default(t).elements[j] == Default(el);
      }
    case StdArrayT(el, n) =>
      if n > 0 {
        DefaultRepresents(el);
        assert forall j :: 0 <= j < |Default(t).elements| ==> Default(t).elements[j] == Default(el);
      }
    case _ =>
  }
}
