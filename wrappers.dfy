/** Failure-carrying values shared by every module: Python's `None`, and the
    outcome of a call that may raise. */
module Wrappers {

  datatype Option<+T> = None | Some(value: T)

  /** The exception classes the modelled code raises or lets through.
      `VendorError` stands for anything a sandbox or model SDK raises. */
  datatype ExcKind =
    | ValueError
    | TypeError
    | AttributeError
    | NotImplementedError
    | UnboundLocalError
    | OSError
    | VendorError

  datatype Exception = Exception(kind: ExcKind, message: string)

  /** The result of a Python call: a returned value or a raised exception. */
  datatype Outcome<+T> = Ok(value: T) | Raised(exc: Exception)
}
