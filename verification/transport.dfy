/**
  The outcome of one backend request, supplied to the model as an input in
  place of the HTTP call: the decoded payload, or the error the call raised.
*/
module Transport {
  import ErrorHandler

  datatype Reply<T> = Ok(payload: T) | Fail(err: ErrorHandler.RawError)
}
