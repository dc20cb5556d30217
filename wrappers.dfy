/** Stock Option and Result datatypes used across the model. */
module Wrappers {
  datatype Option<T> = None | Some(value: T)
  {
    predicate IsSome() { this.Some? }

    function GetOr(default: T): T
    {
      if this.Some? then this.value else default
    }
  }

  /** The outcome of an operation that raises with a message on bad input. */
  datatype Result<T> = Success(value: T) | Failure(error: string)
}
