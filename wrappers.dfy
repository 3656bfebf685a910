/** Failure-compatible wrappers and the fixed-width Go types the model needs. */
module Wrappers {

  /** A nilable Go reference or optional value: `None` is nil. */
  datatype Option<+T> = None | Some(value: T)

  /** A Go `(value, error)` pair where exactly one side is meaningful. */
  datatype Result<+T, +E> = Success(value: T) | Failure(error: E)

  const MinInt64: int := -0x8000_0000_0000_0000
  const MaxInt64: int := 0x7FFF_FFFF_FFFF_FFFF

  /** Go's `int64`, and `int` on the 64-bit platforms the SDK targets. */
  type Int64 = x: int | -0x8000_0000_0000_0000 <= x <= 0x7FFF_FFFF_FFFF_FFFF

  /** One element of a Go `[]byte`. */
  type byte = x: int | 0 <= x < 256

  type Bytes = seq<byte>

  /**
   * The identity of a callback stored by a transport or server (a Go func value).
   * Handlers are never executed by the model; calls to them are recorded in logs.
   */
  type HandlerId = nat
}
