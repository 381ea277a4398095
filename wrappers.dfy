/** Optional values and the exceptions the modelled Python code raises. */
module Wrappers {

  datatype Option<+T> = None | Some(value: T)

  /** The detail carried by an HTTPException: a fixed message, or `str(e)` of a caught exception. */
  datatype Detail = Message(text: string) | StrOf(cause: Exc)

  /** Exceptions that cross a modelled call boundary. */
  datatype Exc =
    | HttpException(status: int, detail: Detail)
    | ValueError(message: string)
    | AttributeError(message: string)
    | Raised(message: string)   // any other exception raised by code outside the model

  /** The result of a Python call: a returned value or a raised exception. */
  datatype Outcome<+T> = Return(value: T) | Throw(exc: Exc)
}
