/** The optional value the application passes around, with the two combinators
    the card's view uses on it. */
module Wrappers {

  datatype Option<+T> = None | Some(value: T) {

    /** Applies `f` to the value, when there is one. */
    function Map<U>(f: T -> U): Option<U>
    {
      match this
      case None => None
      case Some(v) => Some(f(v))
    }

    /** The value, or `default` when there is none. */
    function UnwrapOr(default: T): T
    {
      match this
      case None => default
      case Some(v) => v
    }
  }
}
