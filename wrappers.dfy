/** Nullable values shared by every stage of the pipeline. */
module Wrappers {

  /** A JavaScript `null`/`undefined` (None) or a present value (Some). */
  datatype Option<+T> = None | Some(value: T) {

    /** The value, or `default` when absent (JavaScript's `??`). */
    function GetOr(default: T): T {
      match this
      case Some(v) => v
      case None => default
    }
  }
}
