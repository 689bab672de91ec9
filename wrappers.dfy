/** Option and Result, and the exceptions the bot raises or lets through. */
module Wrappers {

  datatype Option<+T> = None | Some(value: T)

  datatype Result<+T> = Ok(value: T) | Err(error: Error)

  /** The four exception classes of checkbox_api/exceptions.py. */
  datatype CheckboxKind = ApiError | SignError | ReceiptError | ShiftError

  /**
   * The exceptions that reach the modelled code: the fiscal API's own error
   * classes with their message, and the Python built-ins the code raises or
   * lets propagate.
   */
  datatype Error =
    | Checkbox(kind: CheckboxKind, message: string)
    | Timeout                    // asyncio.TimeoutError from a request
    | Connection                 // any other transport failure
    | JsonDecode                 // a body that is not JSON, read as JSON
    | HttpStatus(status: int)    // aiohttp's ClientResponseError from raise_for_status
    | KeyError
    | TypeError
    | AttributeError
    | ValueError(message: string)
    | ZeroDivision
    | Validation                 // pydantic's ValidationError while parsing a record
    | Runtime                    // RuntimeError raised by contextlib
    | UnboundLocal               // UnboundLocalError: a local read before it is assigned

}
