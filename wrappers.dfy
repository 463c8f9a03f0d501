/** Small helper datatypes shared by every module of the model. */
module Wrappers {

  /** A Python value that may be `None`. */
  datatype Option<+T> = None | Some(value: T) {
    function GetOr(default: T): T {
      match this
      case Some(v) => v
      case None => default
    }
  }

  /** The outcome of an operation that either returns a value or raises an error. */
  datatype Result<+T, +E> = Ok(value: T) | Err(error: E)

  /** A keyword argument with a default: `Omitted` means the caller did not pass it. */
  datatype Arg<+T> = Omitted | Given(value: T) {
    function Or(default: T): T {
      match this
      case Given(v) => v
      case Omitted => default
    }
  }
}
