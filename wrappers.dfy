/** The optional-value type used throughout the model for C# references that may be null. */
module Wrappers {

  /** None stands for a C# null reference, Some(v) for a present value. */
  datatype Option<+T> = None | Some(value: T) {

    /** The value, or the given default when there is none. */
    function GetOr(default: T): T
    {
      match this
      case Some(v) => v
      case None => default
    }
  }
}
