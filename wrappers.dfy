/** Option and Result, the two failure-carrying datatypes the model uses for
    Swift optionals and for `throws`. */
module Wrappers {

  /** A Swift optional: `nil` is `None`. */
  datatype Option<+T> = None | Some(value: T) {

    /** The `??` operator: the wrapped value, or `default` when there is none. */
    function GetOr(default: T): T {
      match this
      case Some(v) => v
      case None => default
    }
  }

  /** The outcome of a Swift function that `throws`: a returned value or the error thrown. */
  datatype Result<+R, +E> = Success(value: R) | Failure(error: E)
}
