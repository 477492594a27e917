/** Optional values and results, usable with `:-`. */
module Wrappers {
  datatype Option<+T> = None | Some(value: T)

  datatype Result<+T, +E> = Ok(value: T) | Err(error: E) {
    predicate IsFailure() {
      Err?
    }

    function PropagateFailure<U>(): Result<U, E>
      requires Err?
    {
      Err(error)
    }

    function Extract(): T
      requires Ok?
    {
      value
    }
  }

  /** Requires a condition inside an expression: `var _ :- Check(condition, error);`. */
  function Check<E>(condition: bool, error: E): Result<(), E> {
    if condition then Ok(()) else Err(error)
  }
}
