/** Optional values and results with an error, as the rest of the model uses them. */
module Wrappers {

  /** A value that may be absent: `None` stands for a field that is `undefined`. */
  datatype Option<+T> = None | Some(value: T) {
    function GetOr(default: T): T {
      match this
      case Some(v) => v
      case None => default
    }
  }

  /** A JavaScript field where `null` and `undefined` behave differently. */
  datatype Field<+T> = Undefined | Null | Defined(value: T)

  /** The outcome of an operation that can fail with an error of type `E`. */
  datatype Result<+R, +E> = Ok(value: R) | Err(error: E)
}
