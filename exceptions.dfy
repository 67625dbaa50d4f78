/** The exceptions the client raises, and the Result/Option types that carry them.
    `ResponseError` is the library's own exception; the other constructors stand for
    the Python built-in exceptions that the core code raises or lets escape. */
module Exceptions {

  datatype Error =
    /** bestlab_platform.exceptions.ResponseError(status_code, response_text) */
    | ResponseError(statusCode: int, responseText: string)
    /** `d[key]` or `d.pop(key)` on a dict that has no such key */
    | KeyError(key: string)
    /** an explicit `raise TypeError(message)` */
    | TypeError(message: string)
    /** an explicit `raise ValueError(message)` */
    | ValueError(message: string)
    /** an attribute that was never assigned on an object */
    | AttributeError(name: string)
    /** the TypeError/AttributeError the Python runtime raises when a JSON value is
        used as a type it does not have (indexing a list by a string, adding a
        string to an int, iterating `None`, ...) */
    | WrongType

  datatype Option<+T> = None | Some(value: T)

  datatype Result<+T> = Ok(value: T) | Err(error: Error) {
    predicate IsFailure() {
      Err?
    }

    function PropagateFailure<U>(): Result<U>
      requires Err?
    {
      Err(error)
    }

    function Extract(): T
      requires Ok?
    {
      value
    }
  }
}
