/** Optional values and the outcome of a step that may raise. */
module Wrappers {

  /** Python's `None` or a value. */
  datatype Option<T> = None | Some(value: T) {

    /** The first present value of `this` and `other`: a dictionary key filled by the
        first source that yields one and never overwritten by a later source. */
    function OrElse(other: Option<T>): Option<T> {
      if Some? then this else other
    }
  }

  /** A step that either returns a value or lets an exception escape; which exception
      it was is not modelled, only that the caller's `except` clause sees one. */
  datatype Fetched<T> = Returned(value: T) | Raised
}
