/** Shared vocabulary: optional values, success-or-failure results, and raw bytes. */
module Common {

  /** Swift's `T?`. */
  datatype Option<+T> = None | Some(value: T)

  /** A success value or an error value. */
  datatype Result<+R, +E> = Success(value: R) | Failure(error: E)

  /** One octet of a `Data` value. */
  newtype byte = x: int | 0 <= x < 0x100

  /** Foundation's `Data`: an opaque byte string. */
  type Bytes = seq<byte>
}
