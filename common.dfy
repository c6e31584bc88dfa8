/** Optional values and outcomes shared by every module of the model. */
module Common {

  /** Python's `None` or a value. */
  datatype Option<+T> = None | Some(value: T) {
    function GetOr(default: T): T {
      match this
      case Some(v) => v
      case None => default
    }
  }

  /** A handler outcome: a success body or an error. */
  datatype Result<+R, +E> = Success(value: R) | Failure(error: E)

  /** An HTTP error response: status code and detail message. */
  datatype HttpError = HttpError(status: nat, detail: string)

  function Min(a: int, b: int): int { if a <= b then a else b }
}
