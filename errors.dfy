/** Outcomes of the client's operations: a value, or the exception that
    leaves the operation. */
module Errors {

  datatype Option<+T> = None | Some(value: T)

  /** The exceptions of the HTTP library the client names when it catches
      them; every other request failure (a read timeout, an invalid URL, ...)
      is OtherRequestException. */
  datatype Transport =
    | ConnectionError
    | MissingSchema
    | ConnectTimeout
    | OtherRequestException

  /** An exception leaving a client operation: the client's own three
      (pyphueexceptions.py), a transport failure passed through unchanged,
      or a Python built-in exception the client does not catch. */
  datatype Exc =
    | IPError
    | UserError
    | BridgeError
    | TransportFailure(kind: Transport)
    | KeyError
    | IndexError
    | TypeError
    | AttributeError

  /** A Python computation: it returns a value or raises. */
  datatype PyResult<+T> = Ok(value: T) | Raise(exc: Exc) {

    predicate IsFailure() {
      Raise?
    }

    function PropagateFailure<U>(): PyResult<U>
      requires Raise?
    {
      Raise(exc)
    }

    function Extract(): T
      requires Ok?
    {
      value
    }
  }
}
