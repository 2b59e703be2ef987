/** Failure-carrying datatypes shared by the forecasting modules.
- Option<T> stands for a JavaScript value that may be `null` or `undefined`.
- Result<R, E> stands for a route handler that either answers with a value or
  with an `{ error: ... }` body.
 */
module Wrappers {

  datatype Option<+T> = None | Some(value: T)

  datatype Result<+R, +E> = Success(value: R) | Failure(error: E)
}
