/** How calls on stores and services end. */
module Outcomes {
  datatype Reply<T> = Ok(value: T) | Err(error: string)

  /** A statement that succeeds, one that fails, and one that lands though its reply is lost. */
  datatype Fault = Clean | Dropped | Unseen

  const STORE_ERROR := "store error"
}
