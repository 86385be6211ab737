/** Optional values, the exceptions the engine code raises, and a failure-compatible
    result type that stands for "returns a value or raises". */
module Basics {

  datatype Option<+T> = None | Some(value: T)

  /** The exceptions raised by searchengine/engines.py that the model keeps apart. */
  datatype Error =
    | ValueError(message: string)                // a misconfigured engine
    | AssertionError                             // a failed `assert` on a parsed record
    | KeyError(key: string)                      // a missing key in the request parameters
    | StatusCodeError(status: int, reason: string) // an upstream answer outside 2xx

  /** Either the value a Python call returns or the exception it raises. */
  datatype Try<+T> = Ok(value: T) | Raise(error: Error) {
    predicate IsFailure() { Raise? }

    function PropagateFailure<U>(): Try<U>
      requires Raise?
    {
      Raise(error)
    }

    function Extract(): T
      requires Ok?
    {
      value
    }
  }
}
