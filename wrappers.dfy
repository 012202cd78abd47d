/** Option and Result, the failure-carrying datatypes used across the model. */
module Wrappers {

  /** `None` stands for JavaScript's `undefined` where the source can produce it. */
  datatype Option<+T> = None | Some(value: T) {
    function GetOr(default: T): T {
      match this
      case Some(v) => v
      case None => default
    }
  }

  /** The outcome of a step that may throw: `Err` carries the exception's message. */
  datatype Result<+T> = Ok(value: T) | Err(message: string)
}
