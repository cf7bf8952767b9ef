/** Optional values and error-carrying results, used wherever the modelled
    code returns `undefined`/`NaN` or throws. */
module Wrappers {

  /** A value that may be missing (`undefined` in the modelled code). */
  datatype Option<+T> = None | Some(value: T) {

    /** The carried value, or `default` when there is none (`x ?? default`). */
    function GetOr(default: T): T {
      match this
      case Some(v) => v
      case None => default
    }
  }

  /** The outcome of an operation that may throw instead of returning. */
  datatype Result<+T, +E> = Ok(value: T) | Err(error: E)
}
