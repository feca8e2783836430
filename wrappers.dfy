/** Rust's `Option` and `Result`, as the rest of the model uses them. */
module Wrappers {

  datatype Option<+T> = None | Some(value: T)

  datatype Result<+T, +E> = Ok(value: T) | Err(error: E)

  /** `Option::unwrap_or_default` for a vector: an absent vector is the empty one. */
  function UnwrapOrEmpty<T>(o: Option<seq<T>>): seq<T>
  {
    match o
    case Some(v) => v
    case None => []
  }
}
