/** Option and Result values shared by every module of the model. */
module Outcomes {
  datatype Option<T> = None | Some(value: T) {
    predicate IsSome() { this.Some? }

    function GetOr(default: T): (r: T)
      ensures this.Some? ==> r == value
      ensures this.None? ==> r == default
    {
      match this
      case None => default
      case Some(v) => v
    }
  }

  /** A computation that either produced a value or raised an exception that
      the surrounding Python code did not catch. */
  datatype Result<T, E> = Ok(value: T) | Raised(error: E)
}
