/** Values that stand for JavaScript's `undefined` and for a call that throws. */
module Wrappers {

  /** A field that may still be `undefined`. */
  datatype Option<+T> = None | Some(value: T) {

    /** The defined value, else `fallback`: JavaScript's `x || fallback` for a field
        that is never falsy once it is defined. */
    function ValueOr(fallback: T): T {
      if Some? then value else fallback
    }
  }

  /** The outcome of a call that may throw a TypeError (a method called on `false`). */
  datatype Thrown<+T> = Returned(value: T) | TypeError
}
