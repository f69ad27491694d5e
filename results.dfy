/** Option and Result values shared by the other modules. */
module Results {

  datatype Option<+T> = None | Some(value: T)
  {
    /** Rust's `Option::or_else`: this value if present, otherwise `other`. */
    function OrElse(other: Option<T>): Option<T>
    {
      if Some? then this else other
    }

    /** Rust's `Option::unwrap_or`. */
    function UnwrapOr(default: T): T
    {
      if Some? then value else default
    }
  }

  /** Rust's `Option::map`. */
  function MapOption<T, U>(o: Option<T>, f: T -> U): Option<U>
  {
    match o
    case None => None
    case Some(v) => Some(f(v))
  }

  datatype Result<+T, +E> = Ok(value: T) | Err(error: E)
}
