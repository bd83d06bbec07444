/** Small shared vocabulary: optional values, results with an error side,
    and the byte type used by the bytecode table and the wire protocol. */
module Prelude {

  datatype Option<+T> = None | Some(value: T)

  datatype Result<+R, +E> = Success(value: R) | Failure(error: E)

  /** An unsigned 8-bit value. */
  newtype byte = x: int | 0 <= x < 256
}
