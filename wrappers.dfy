/** Optional values: an absent search hit, an empty or unparsable text input. */
module Wrappers {

  datatype Option<+T> = None | Some(value: T) {

    /** The carried value, or `default` when there is none. */
    function GetOr(default: T): T {
      match this
      case Some(v) => v
      case None => default
    }
  }

  /** The outcome of a step that can be refused for a stated reason. */
  datatype Result<+R, +E> = Success(value: R) | Failure(error: E)
}
