/**
 * The engine's closed enumerations as the library uses them: the value-type
 * tags of a call-signature descriptor, the typed-array kinds, the C element
 * types a typed array can hold, and the `js_is_*` probes.
 */
module Tags {

  /** The native fixed-width integer types. */
  type int32 = x: int | -0x8000_0000 <= x < 0x8000_0000
  type uint32 = x: int | 0 <= x < 0x1_0000_0000
  type int64 = x: int | -0x8000_0000_0000_0000 <= x < 0x8000_0000_0000_0000

  /** `js_value_type_t`, as used for `js_callback_signature_t.result` and `args[i]`. */
  datatype Tag =
    | Undefined | Boolean | Int32 | Uint32 | Int64 | Float64
    | BigInt | String | Symbol | Object | Function | External

  /** The C element types `js_typedarray_info_t` is specialised for. */
  datatype ElementType = I8 | U8 | I16 | U16 | I32 | U32 | I64 | U64 | F32 | F64

  /** `js_typedarray_type_t`: the engine's typed-array kinds. */
  datatype TypedArrayKind =
    | Int8Array | Uint8Array | Int16Array | Uint16Array | Int32Array | Uint32Array
    | BigInt64Array | BigUint64Array | Float32Array | Float64Array

  /** The engine's type probes `js_is_boolean`, `js_is_int32`, ..., `js_is_<kind>array`. */
  datatype Probe =
    | IsBoolean | IsInt32 | IsUint32 | IsNumber | IsBigInt | IsString | IsSymbol
    | IsObject | IsArray | IsArrayBuffer | IsTypedArray(element: ElementType)
    | IsFunction | IsExternal
}
