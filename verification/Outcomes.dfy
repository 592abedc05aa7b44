/** How a call ends: normally, with a value, or by raising one of the
    exceptions the router and the integrations raise. */
module Outcomes {

  datatype Option<+T> = None | Some(value: T)

  datatype Error =
    | ValidationError
    | KeyError
    | ValueError
    | TypeError
    | IndexError
    | BufferError
    | RuntimeError
    | TimeoutError
    | AdapterError

  datatype Outcome = Ok | Raised(error: Error)

  datatype Result<+T> = Success(value: T) | Failure(error: Error)
}
