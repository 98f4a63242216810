/** Rust's `Option` and `Box`, as the bridge uses them. */
module Wrappers {

  /** `Option<T>`: a value that may be absent. */
  datatype Option<+T> = None | Some(value: T) {

    /** `Option::map`: applies `f` under `Some`, keeps `None`. */
    function Map<U>(f: T -> U): Option<U> {
      match this
      case None => None
      case Some(v) => Some(f(v))
    }
  }

  /** `Box<T>`: an owned pointer; as a value it is just its content. */
  datatype Box<+T> = Box(inner: T)
}
