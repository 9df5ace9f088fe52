/** Optional values and outcomes: how the model writes `None` and a raised exception. */
module Wrappers {

  datatype Option<+T> = None | Some(value: T)

  datatype Result<+T, +E> = Ok(value: T) | Err(error: E) {
    predicate IsFailure() {
      Err?
    }

    function PropagateFailure<U>(): Result<U, E>
      requires Err?
    {
      Err(error)
    }

    function Extract(): T
      requires Ok?
    {
      value
    }
  }

  /** The value, or the given error in place of a missing one. */
  function OrElse<T, E>(o: Option<T>, error: E): Result<T, E> {
    if o.Some? then Ok(o.value) else Err(error)
  }

  function Check<E>(condition: bool, error: E): Result<(), E> {
    if condition then Ok(()) else Err(error)
  }
}
