/**
 Failure-carrying datatypes shared by the whole client model.

 `Error` is the exception taxonomy of the HydroDS client: the seven
 HydroDS exception classes plus the Python built-in exceptions that the
 client lets escape (a bare `Exception`, `ValueError`, `KeyError`,
 `IndexError`, `AttributeError`) and the failure of the HTTP library on a missing URL.
 */
module Errors {

  datatype Option<+T> = None | Some(value: T) {
    function GetOr(default: T): T {
      match this
      case Some(v) => v
      case None => default
    }
  }

  datatype Error =
    | ArgumentError(message: string)     // HydroDSArgumentException
    | BadRequest(message: string)        // HydroDSBadRequestException (HTTP 400)
    | NotAuthenticated(message: string)  // HydroDSNotAuthenticatedException (HTTP 401)
    | NotAuthorized(message: string)     // HydroDSNotAuthorizedException (HTTP 403)
    | NotFound(message: string)          // HydroDSNotFoundException (HTTP 404)
    | ServerError(message: string)       // HydroDSServerException (HTTP 500)
    | ServiceError(message: string)      // HydroDSException
    | GenericError(message: string)      // a bare Python Exception
    | ValueError(message: string)
    | KeyError(key: string)
    | IndexError(message: string)
    | AttributeError(message: string)
    | InvalidUrl                         // the HTTP library called with no URL
    | PollingUnfinished                  // the finite status script ran out (model bound)

  /** Either the value an operation returns or the exception it raises. */
  datatype Result<+T> = Ok(value: T) | Err(error: Error) {
    predicate IsFailure() {
      Err?
    }

    function PropagateFailure<U>(): Result<U>
      requires Err?
    {
      Err(error)
    }

    function Extract(): T
      requires Ok?
    {
      value
    }
  }

  /** A check that either passes or raises. */
  datatype Check = Pass | Fail(error: Error) {
    predicate IsFailure() {
      Fail?
    }

    function PropagateFailure<U>(): Result<U>
      requires Fail?
    {
      Err(error)
    }
  }

  function Need(condition: bool, error: Error): (c: Check)
    ensures c.Pass? <==> condition
  {
    if condition then Pass else Fail(error)
  }
}
