/** Failure-carrying results shared by every stage of the pipeline. */
module Wrappers {

  datatype Option<+T> = None | Some(value: T)

  /** Why a stage stopped: the Python code raises in each of these cases. */
  datatype Error =
    | MalformedClassifierReply          // json.loads / int() on the relevance reply failed
    | MissingPayloadKey(key: string)     // KeyError on a search payload
    | MissingContextKey(key: string)     // Context.get on a key that was never set
    | ServiceError(detail: string)       // any other exception raised by an external service

  datatype Result<+T> = Success(value: T) | Failure(error: Error)

  /**
   * The detail text the HTTP layer reports for an error. It stands for
   * `str(e)` of the exception: a missing key is quoted as a `KeyError` is,
   * the others carry a fixed placeholder or the service's own text; the
   * wording of Python's exception messages is not reproduced.
   */
  function ErrorText(e: Error): string
  {
    match e
    case MalformedClassifierReply => "malformed relevance reply"
    case MissingPayloadKey(k) => "'" + k + "'"
    case MissingContextKey(k) => "'" + k + "'"
    case ServiceError(d) => d
  }
}
