/** The library's exception taxonomy, plus the two built-in Python failures that the
    client lets escape when a response body does not have the expected shape. */
module Errors {

  datatype Error =
    /** MyLightSystemsConnectionError, with the message the client attaches. */
    | ConnectionError(message: string)
    /** MyLightSystemsInvalidAuthError */
    | InvalidAuthError
    /** MyLightSystemsUnauthorizedError */
    | UnauthorizedError
    /** MyLightSystemsUnknownDeviceError */
    | UnknownDeviceError
    /** MyLightSystemsMeasuresTotalNotSupportedError */
    | MeasuresTotalNotSupportedError
    /** Python's KeyError: an object body has no member with this key. */
    | KeyError(key: string)
    /** Python's TypeError: the value is not subscriptable by a string, or not iterable. */
    | TypeError
    /** Any other exception, by class name, that a collaborator such as the device factory raises. */
    | Other(name: string)

  /** True for the subclasses of MyLightSystemsError, the library's root error. */
  predicate IsLibraryError(e: Error)
  {
    !e.KeyError? && !e.TypeError? && !e.Other?
  }

  /** A raised exception, or a returned value; usable with `:-` as Python propagates a raise. */
  datatype Result<+T> = Ok(value: T) | Err(error: Error) {

    predicate IsFailure()
    {
      Err?
    }

    function PropagateFailure<U>(): Result<U>
      requires Err?
    {
      Err(error)
    }

    function Extract(): T
      requires Ok?
    {
      value
    }
  }
}
