/** Values that may be absent, and outcomes that may be errors. */
module Wrappers {

  datatype Option<+T> = None | Some(value: T) {

    /** The `a ?? b` operator of the source. */
    function Else(default: T): T {
      match this
      case Some(v) => v
      case None => default
    }
  }

  datatype Result<+T, +E> = Success(value: T) | Failure(error: E)
}
