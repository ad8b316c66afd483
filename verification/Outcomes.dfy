/** Values that may be absent, and results that carry an error code. */
module Outcomes {

  datatype Option<+T> = None | Some(value: T)

  /** A Rust `Result` whose error is its stable code. */
  datatype Result<+T> = Ok(value: T) | Err(code: string) {

    predicate IsFailure() { Err? }

    function PropagateFailure<U>(): Result<U>
      requires Err?
    {
      Err(code)
    }

    function Extract(): T
      requires Ok?
    {
      value
    }
  }
}
