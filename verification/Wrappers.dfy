/** Results of operations that may fail, in the shape of Go's `(value, error)` pairs. */
module Wrappers {

  datatype Option<+T> = None | Some(value: T)

  /** The error classes the modelled code returns. `Panic` stands for a Go run-time panic. */
  datatype Error =
    | OffsetOutside
    | NotEnoughSpace
    | Negative
    | NilInput
    | Invalid
    | Overflow
    | BadKey
    | OpenFailed
    | LengthMismatch
    | NotNumeric
    | Panic

  datatype Result<+T> = Ok(value: T) | Err(error: Error) {

    predicate IsFailure() {
      Err?
    }

    function PropagateFailure<U>(): Result<U>
      requires Err?
    {
      Err(error)
    }

    function Extract(): T
      requires Ok?
    {
      value
    }
  }
}
