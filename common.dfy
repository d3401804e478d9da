/** Failure-carrying wrappers shared by the pipeline and the validator. */
module Common {

  /** A value that pandas may hold as NaN/None is `None` here. */
  datatype Option<+T> = None | Some(value: T) {
    function GetOr(default: T): T {
      match this
      case Some(v) => v
      case None => default
    }
  }

  /** An operation that either yields a value or raises an error. */
  datatype Result<+R, +E> = Success(value: R) | Failure(error: E)
}
