/** Option and Result, the two failure-carrying datatypes the model uses for
    C#'s nullable values and thrown exceptions. */
module Wrappers {

  /** A C# nullable value: `None` stands for `null`. */
  datatype Option<+T> = None | Some(value: T) {
    /** The `??` operator. */
    function GetOr(default: T): T {
      match this
      case Some(v) => v
      case None => default
    }
  }

  /** The outcome of a C# call that either returns a value or throws. */
  datatype Result<+R, +E> = Success(value: R) | Failure(error: E)
}
