/** The crate's single public error type and its `Result` alias.
    The declaring file (src/error.rs) is not part of this model: the three
    variants and their message payloads are exactly the ones the QuickJS
    binding constructs. */
module Errors {

  /** One variant per failure kind, each carrying the backend's display text. */
  datatype Error =
    | JsInitError(msg: string)
    | JsExecError(msg: string)
    | JsValueError(msg: string)

  /** `crate::error::Result<T>`. */
  datatype Result<+T> = Ok(value: T) | Err(error: Error)
}
