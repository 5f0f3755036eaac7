/** Absent values and failing outcomes, as used across the model. */
module Wrappers {

  /** A JavaScript value that may be `null` or `undefined`. */
  datatype Option<+T> = None | Some(value: T) {

    /** `value ?? fallback` */
    function OrDefault(fallback: T): T {
      if Some? then value else fallback
    }
  }

  /** Either what an operation produced or why it threw / refused its input. */
  datatype Result<+R, +E> = Success(value: R) | Failure(error: E)
}
