/** The Python exceptions the evaluation scripts can raise, and the result
    type every fallible operation of the model returns. */
module Errors {

  datatype Error =
    | ZeroDivision            // `x / 0` on a Python number
    | KeyError(key: string)   // `d[key]` on a dict that lacks `key`
    | AttributeError(name: string)  // `getattr(obj, name)` on a missing attribute
    | ShapeMismatch           // numpy cannot broadcast two arrays of different lengths
    | AssertionFailed         // a failing `assert` statement
    | DtwFailure              // `librosa.sequence.dtw` given an empty signal

  datatype Result<+T> = Ok(value: T) | Err(error: Error) {
    predicate IsFailure() { Err? }

    function PropagateFailure<U>(): Result<U>
      requires Err?
    {
      Err(error)
    }

    function Extract(): T
      requires Ok?
    {
      value
    }
  }

  datatype Option<+T> = None | Some(value: T)
}
