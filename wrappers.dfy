/** Wrappers used across the model: JavaScript's
    `undefined`/`null` become `None`, a rejected promise becomes `Err`. */
module Wrappers {

  datatype Option<+T> = None | Some(value: T) {
    /** `x ?? default` */
    function GetOr(default: T): T {
      match this
      case Some(v) => v
      case None => default
    }
  }

  datatype Result<+T> = Ok(value: T) | Err(message: string)

  /** A request that resolves with nothing of interest, or rejects. */
  datatype Outcome = Pass | Fail(message: string)
}
