/**
 * The library's error type, as far as the algorithm layer produces it, and the
 * `Result` every fallible operation returns.
 */
module Errors {
  import opened Base

  datatype Error =
    /** A `String` turned into an error by `?`, e.g. an invalid-secret message. */
    | GenericError(message: string)
    /** A recognised algorithm that this layer does not implement. */
    | UnsupportedOperation
    /** Any failure reported by the cryptographic library or the random source. */
    | UnspecifiedCryptographicError
    /** A key of the wrong type was supplied. */
    | WrongKeyType(expected: KeyType, actual: KeyType)

  datatype Result<T> = Ok(value: T) | Err(error: Error) {
    predicate IsFailure() { Err? }

    function PropagateFailure<U>(): Result<U>
      requires Err?
    {
      Err(error)
    }

    function Extract(): T
      requires Ok?
    {
      value
    }
  }
}
