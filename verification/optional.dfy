/**
 The small part of ComponentKit's `Optional` that the animation builders rely on:
 a value that may be absent, read back with a fallback (`valueOr`).
 */
module Optional {

  datatype Optional<+T> = None | Some(value: T) {

    /** The carried value, or `fallback` when there is none. */
    function ValueOr(fallback: T): (r: T)
      ensures Some? ==> r == value
      ensures None? ==> r == fallback
    {
      match this
      case Some(v) => v
      case None => fallback
    }

    /** `this` when it carries a value, otherwise `other`. */
    function Or(other: Optional<T>): (r: Optional<T>)
      ensures r.Some? <==> Some? || other.Some?
      ensures Some? ==> r == this
      ensures None? ==> r == other
    {
      if Some? then this else other
    }
  }
}
