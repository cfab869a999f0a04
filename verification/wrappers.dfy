/** The optional-value datatype used across the model: `None` stands for a
    lookup that found nothing (Mongoose's `null`) or a value JavaScript leaves
    `undefined`. */
module Wrappers {

  datatype Option<+T> = None | Some(value: T) {

    /** Returns the value held in Some, or the given default when None. */
    function GetOr(default: T): T {
      match this
      case Some(v) => v
      case None => default
    }
  }
}
