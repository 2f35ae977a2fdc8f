/**
 * Boxed engine values (what a `js_value_t *` points to) and the native
 * values the library converts them to and from.
 */
module Values {
  import Tags

  type byte = x: int | 0 <= x < 256

  /** A JavaScript number: an integral value, or any other double (kept opaque). */
  datatype Num = Integral(i: int) | Fractional(bits: nat)

  /**
   * A boxed value with its runtime kind.  Arrays carry their elements; the
   * other reference kinds carry an identity.
   */
  datatype Value =
    | Undefined
    | Boolean(b: bool)
    | Number(n: Num)
    | BigInt(id: nat)
    | String(bytes: seq<byte>)
    | Symbol(id: nat)
    | Object(id: nat)
    | Array(elements: seq<Value>)
    | ArrayBuffer(id: nat)
    | TypedArray(element: Tags.ElementType, id: nat)
    | Function(id: nat)
    | External(address: nat)

  /**
   * A native value.  `Handle` is one of the `js_*_t` wrappers around a boxed
   * value and `Null` a default-constructed wrapper; `Bytes` is a C string,
   * `char[N]` or `std::string`; `List` is a `T[N]`, `std::array` or `std::vector`.
   */
  datatype Native =
    | Void
    | Bool(b: bool)
    | Int(i: int)
    | Double(bits: nat)
    | Pointer(address: nat)
    | Handle(v: Value)
    | Null
    | Bytes(s: seq<byte>)
    | List(elements: seq<Native>)

  predicate InInt32(i: int) { -0x8000_0000 <= i < 0x8000_0000 }
  predicate InUint32(i: int) { 0 <= i < 0x1_0000_0000 }

  /** The answer a well-behaved engine gives to probe `p` about `v`. */
  predicate Matches(p: Tags.Probe, v: Value) {
    match p
    case IsBoolean => v.Boolean?
    case IsInt32 => v.Number? && v.n.Integral? && InInt32(v.n.i)
    case IsUint32 => v.Number? && v.n.Integral? && InUint32(v.n.i)
    case IsNumber => v.Number?
    case IsBigInt => v.BigInt?
    case IsString => v.String?
    case IsSymbol => v.Symbol?
    case IsObject => v.Object? || v.Array? || v.ArrayBuffer? || v.TypedArray? || v.Function?
    case IsArray => v.Array?
    case IsArrayBuffer => v.ArrayBuffer?
    case IsTypedArray(e) => v.TypedArray? && v.element == e
    case IsFunction => v.Function?
    case IsExternal => v.External?
  }

  /** Whether `v` is a value the signature tag `t` announces. */
  predicate Conforms(t: Tags.Tag, v: Value) {
    match t
    case Undefined => v.Undefined?
    case Boolean => v.Boolean?
    case Int32 => Matches(Tags.IsInt32, v)
    case Uint32 => Matches(Tags.IsUint32, v)
    case Int64 => v.Number?
    case Float64 => v.Number?
    case BigInt => v.BigInt?
    case String => v.String?
    case Symbol => v.Symbol?
    case Object => Matches(Tags.IsObject, v)
    case Function => v.Function?
    case External => v.External?
  }
}
