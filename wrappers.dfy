/** The optional-value datatype used throughout the model: `None` stands for a
    JavaScript `null`/`undefined` (an absent key, a missing token). */
module Wrappers {

  datatype Option<+T> = None | Some(value: T) {

    /** The value, or `default` when there is none (JavaScript's `x || default`
        for an object-valued `x`, which is always truthy when present). */
    function GetOr(default: T): T {
      match this
      case Some(v) => v
      case None => default
    }
  }
}
