/** Optional values and error-carrying results shared by every module. */
module Base {

  datatype Option<+T> = None | Some(value: T) {
    function GetOr(default: T): T {
      match this
      case Some(v) => v
      case None => default
    }
  }

  /** The outcome of an operation that may raise: a value, or the error it raised. */
  datatype Result<+T, +E> = Ok(value: T) | Err(error: E)

  /** A byte, as Python's `bytes` holds them. */
  newtype byte = x: int | 0 <= x < 256

  type Bytes = seq<byte>
}
