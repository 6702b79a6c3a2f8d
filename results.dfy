/** Option, Result and Outcome: the Rust `Option`, `Result<T, String>` and
    `Result<(), String>` of the engine, usable with `:-` as Rust's `?`. */
module Results {

  datatype Option<+T> = None | Some(value: T)

  datatype Result<+T> = Ok(value: T) | Err(msg: string) {
    predicate IsFailure() {
      Err?
    }

    function PropagateFailure<U>(): Result<U>
      requires Err?
    {
      Err(msg)
    }

    function Extract(): T
      requires Ok?
    {
      value
    }
  }

  /** A `Result<(), String>`: success carries no value. */
  datatype Outcome = Pass | Fail(msg: string) {
    predicate IsFailure() {
      Fail?
    }

    function PropagateFailure<U>(): Result<U>
      requires Fail?
    {
      Err(msg)
    }
  }
}
