/** Option and Result: an absent (undefined) configuration field, and an operation that may throw. */
module Wrappers {

  datatype Option<+T> = None | Some(value: T) {

    /** The value, or `default` when absent: the `??` operator. */
    function GetOr(default: T): T {
      match this
      case Some(v) => v
      case None => default
    }
  }

  datatype Result<+T> = Ok(value: T) | Err(message: string)

  /** The result of a step that either completes or throws with a message. */
  datatype Outcome = Pass | Fail(message: string)
}
