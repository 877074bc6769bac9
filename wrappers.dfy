/** Option and Result, the two failure-carrying shapes the rest of the model uses
    for JavaScript's `null`/`undefined` and for thrown errors. */
module Wrappers {

  datatype Option<+T> = None | Some(value: T) {
    function GetOr(default: T): T {
      match this
      case Some(v) => v
      case None => default
    }
  }

  /** `Failure` carries the message of the error the source throws. */
  datatype Result<+R> = Success(value: R) | Failure(error: string)
}
