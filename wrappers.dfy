/** Optional values and failure results shared by the whole model. */
module Wrappers {

  /** A JavaScript value that may be `null`/`undefined`. */
  datatype Option<+T> = None | Some(value: T) {
    function GetOr(default: T): T {
      match this
      case Some(v) => v
      case None => default
    }
  }

  /** An exception the JavaScript would throw at run time. */
  datatype JsError = TypeError(message: string)

  /** Normal completion, or completion by a thrown exception. */
  datatype Outcome = Pass | Fail(error: JsError)

  /** A returned value, or a thrown exception. */
  datatype Result<+R> = Success(value: R) | Failure(error: JsError)
}
