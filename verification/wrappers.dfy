/** The optional value that every step of the image pipeline produces: a
    step either yields a value or is absent, and absence is the only failure
    signal an image source reports to its caller. */
module Wrappers {

  datatype Option<+T> = None | Some(value: T) {

    /** Applies a step that may itself be absent; absence propagates
        (Swift's `Optional.flatMap`). */
    function FlatMap<U>(f: T -> Option<U>): Option<U>
    {
      match this
      case None => None
      case Some(v) => f(v)
    }

    /** Applies a step that always succeeds. */
    function Map<U>(f: T -> U): Option<U>
    {
      match this
      case None => None
      case Some(v) => Some(f(v))
    }

    /** The encapsulated value, or `default` when absent (Swift's `??`). */
    function GetOr(default: T): T
    {
      match this
      case None => default
      case Some(v) => v
    }
  }
}
