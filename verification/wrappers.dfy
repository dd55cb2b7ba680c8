/** Failure-compatible Option and Result datatypes, used with `:-` the way the
    Rust code uses `?`. */
module Wrappers {

  datatype Option<+T> = None | Some(value: T)

  datatype Result<+T, +E> = Ok(value: T) | Err(error: E) {

    predicate IsFailure() {
      Err?
    }

    function PropagateFailure<U>(): Result<U, E>
      requires Err?
    {
      Err(error)
    }

    function Extract(): T
      requires Ok?
    {
      value
    }

    /** Converts the error with `f`, keeping a success untouched (Rust's `map_err`). */
    function MapErr<NewE>(f: E -> NewE): Result<T, NewE>
    {
      match this
      case Ok(v) => Ok(v)
      case Err(e) => Err(f(e))
    }
  }
}
