/** Failure-compatible wrappers shared by every module of the model.

    `Option` stands for the TypeScript optional fields (`fixedAmount?`,
    `percentage?`) and for the outcome of `parseFloat` (None is NaN).
 */
module Wrappers {

  datatype Option<+T> = None | Some(value: T) {

    /** The value, or `default` when absent. */
    function GetOr(default: T): T {
      match this
      case Some(v) => v
      case None => default
    }
  }

  /** An accepted value or the reason it was rejected. */
  datatype Result<+T, +E> = Success(value: T) | Failure(error: E)
}
