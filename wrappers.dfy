/** Option and Result, the two failure-carrying values the model uses. */
module Wrappers {

  datatype Option<+T> = None | Some(value: T)

  /** The outcome of a route handler: a JSON body with status 200, or an error status and message. */
  datatype Reply<+T> = Json(body: T) | Error(status: int, message: string)
}
