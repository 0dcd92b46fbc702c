/** Optional values and success/failure results shared by the validator and the store. */
module Results {

  /** A value that may be absent (an `undefined` field of a JavaScript object). */
  datatype Option<+T> = None | Some(value: T) {

    /** The value if present, otherwise `default`. */
    function GetOr(default: T): T {
      match this
      case Some(v) => v
      case None => default
    }
  }

  /** The outcome of a `safeParse`: the parsed data or the problems found. */
  datatype Result<+T, +E> = Success(value: T) | Failure(error: E)
}
