/** Basic value types shared by the SmartClim model: bytes and failure-carrying wrappers. */
module Types {

  /** One element of a Python `bytearray`: an unsigned 8-bit value. */
  type byte = b: int | 0 <= b < 256

  datatype Option<+T> = None | Some(value: T)

  /** The outcome of an operation that the source ends by raising an exception. */
  datatype Result<+R, +E> = Success(value: R) | Failure(error: E)
}
