/** The Go value types the rest of the model is written in. */
module GoTypes {

  /** A Go `byte`. */
  type byte = b: int | 0 <= b < 0x100

  /** A Go `string`: an immutable sequence of bytes. `len` and slicing count bytes. */
  type GoString = seq<byte>

  const MinInt64: int := -0x8000_0000_0000_0000
  const MaxInt64: int := 0x7FFF_FFFF_FFFF_FFFF

  /** A Go `int64`. */
  type int64 = x: int | -0x8000_0000_0000_0000 <= x <= 0x7FFF_FFFF_FFFF_FFFF

  /** A value that may be absent. */
  datatype Option<+T> = None | Some(value: T)

  /** Go's `(value, error)` pair: exactly one of the two is meaningful. */
  datatype Result<+T, +E> = Ok(value: T) | Err(error: E)

  /** Go's lone `error` return: nil or an error. */
  datatype Outcome<+E> = Pass | Fail(error: E)

  /** Indexing a Go `map[string]string`: a missing key yields the empty string. */
  function Lookup(m: map<GoString, GoString>, key: GoString): (v: GoString)
    ensures key !in m ==> v == []
    ensures key in m ==> v == m[key]
  {
    if key in m then m[key] else []
  }
}
