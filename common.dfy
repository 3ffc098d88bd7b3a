/** Shared value wrappers used by every module of the model. */
module Common {

  /** A value that may be absent: Python's `None` or a missing key. */
  datatype Option<T> = None | Some(value: T) {
    function GetOr(default: T): T {
      match this
      case Some(v) => v
      case None => default
    }
  }
}
