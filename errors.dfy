/**
 * The Python exceptions the backend raises or catches, as values, and `str(e)`,
 * which is what the `{code, msg, data}` envelopes and error frames carry.
 */
module Errors {
  import opened Text

  datatype Exc =
    | ValueError(message: string)
    | AttributeError(message: string)
    | TypeError(message: string)
    | KeyError(key: string)
    | ZeroDivisionError(message: string)
    | NameError(message: string)
      /** FastAPI's `HTTPException(status_code, detail)`. */
    | HttpException(status: int, detail: string)

  /**
   * `str(e)`. A `KeyError` prints the repr of its key (a quoted string) and an
   * `HTTPException` prints "status: detail", as Starlette's `__str__` does.
   */
  function Str(e: Exc): string {
    match e
    case ValueError(m) => m
    case AttributeError(m) => m
    case TypeError(m) => m
    case KeyError(k) => "'" + k + "'"
    case ZeroDivisionError(m) => m
    case NameError(m) => m
    case HttpException(s, d) => IntToString(s) + ": " + d
  }
}
