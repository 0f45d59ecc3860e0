/** The optional-value wrapper used for every field that the source may leave undefined. */
module Wrappers {

  /** `None` stands for an absent (undefined) field, or for `null` where the source writes one. */
  datatype Option<+T> = None | Some(value: T) {

    /** The value when present, otherwise `default` (the source's `x ?? default`). */
    function GetOr(default: T): T {
      match this
      case Some(v) => v
      case None => default
    }
  }
}
