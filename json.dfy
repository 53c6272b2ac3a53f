/**
 * The generic JSON document the decoder reads, as serde_json's `Value`
 * holds it after parsing, together with the lookups the decoder uses on it:
 * indexing by key, `as_str`, `as_u64` and `as_array`.
 */
module Json {
  import opened Wrappers

  const U64_LIMIT: int := 0x1_0000_0000_0000_0000
  const U32_LIMIT: int := 0x1_0000_0000

  /** Rust's `u64` and `u32`. */
  type U64 = x: int | 0 <= x < U64_LIMIT
  type U32 = x: int | 0 <= x < U32_LIMIT

  /**
   * A JSON value. Integral numbers and numbers written with a fraction or
   * an exponent are kept apart, as serde_json's `Number` keeps them; an
   * object maps each key to one value.
   */
  datatype Value =
    | Null
    | Bool(b: bool)
    | Int(i: int)
    | Float(x: real)
    | Str(s: string)
    | Array(items: seq<Value>)
    | Object(fields: map<string, Value>)

  /** `v[key]`: the member named `key`, or `Null` when `v` is not an object or has no such member. */
  function Index(v: Value, key: string): Value {
    if v.Object? && key in v.fields then v.fields[key] else Null
  }

  /** `v.as_str()`. */
  function AsStr(v: Value): Option<string> {
    if v.Str? then Some(v.s) else None
  }

  /** `v.as_u64()`: only a non-negative integral number that fits in 64 bits. */
  function AsU64(v: Value): Option<U64> {
    if v.Int? && 0 <= v.i < U64_LIMIT then Some(v.i as U64) else None
  }

  /** `v.as_array()`. */
  function AsArray(v: Value): Option<seq<Value>> {
    if v.Array? then Some(v.items) else None
  }
}
