/** Go's fixed-width integers and the two failure-carrying wrappers the gateway model uses. */
module Base {

  /** Go's uint64. */
  type UInt64 = x: int | 0 <= x < 0x1_0000_0000_0000_0000

  /** Go's int64. */
  type Int64 = x: int | -0x8000_0000_0000_0000 <= x < 0x8000_0000_0000_0000

  /** Go's int32. */
  type Int32 = x: int | -0x8000_0000 <= x < 0x8000_0000

  datatype Option<+T> = None | Some(value: T)

  /** A Go `(value, error)` pair: either the value, or the text of `err.Error()`. */
  datatype Outcome<+T> = Ok(value: T) | Err(msg: string)
}
