/** The optional-value wrapper used wherever the TypeScript program has an
    optional field (`x?: T`) or a `T | null` value. */
module Wrappers {

  /** `None` stands for `null` / `undefined`; `Some(v)` for a present value. */
  datatype Option<+T> = None | Some(value: T) {

    /** The wrapped value, or `default` when absent (the program's `x || default`
        for values that are never falsy when present). */
    function GetOr(default: T): T {
      match this
      case Some(v) => v
      case None => default
    }
  }
}
