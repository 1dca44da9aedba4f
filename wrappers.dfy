/** Optional values and failure results shared by every module of the model. */
module Wrappers {

  /** A value that may be absent: a nullable column or an optional argument. */
  datatype Option<+T> = None | Some(value: T) {
    function GetOr(default: T): T {
      match this
      case Some(v) => v
      case None => default
    }
  }

  /** The outcome of an operation that the source can abandon with an exception. */
  datatype Result<+T> = Ok(value: T) | Err(error: string)
}
