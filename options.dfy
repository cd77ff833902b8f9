/** Optional values and error-or-value results. A Python `dict.get(key, default)`
    reads an `Option` field with `GetOr(default)`; an exception raised while a
    view is built is a `Failure` carrying the exception's message. */
module Options {

  datatype Option<+T> = None | Some(value: T) {

    /** The value, or `default` when absent: Python's `d.get(key, default)`. */
    function GetOr(default: T): T {
      match this
      case Some(v) => v
      case None => default
    }
  }

  datatype Result<+R, +E> = Success(value: R) | Failure(error: E)
}
