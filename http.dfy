/** The JSON error envelope `{error, message, status}` and the HTTP responses that carry it. */
module Http {
  import opened Common

  /** A `Retry-After` value: a number of seconds, or a header string passed through. */
  datatype RetryAfter = Seconds(n: int) | HeaderText(text: string)

  predicate RetryAfterTruthy(r: Option<RetryAfter>)
  {
    match r
    case None => false
    case Some(Seconds(n)) => n != 0
    case Some(HeaderText(t)) => t != ""
  }

  /** The JSON body of an error answer. `retryAfter` and `stack` are present only in some. */
  datatype Envelope = Envelope(
    error: string,
    message: string,
    status: int,
    retryAfter: Option<RetryAfter>,
    stack: Option<string>)

  /** An answered request: the status code, the `Retry-After` header if set, and the body. */
  datatype Response = Response(status: int, retryAfterHeader: Option<RetryAfter>, body: Envelope)

  /** The common shape `res.status(code).json({error, message, status: code})`. */
  function Plain(status: int, error: string, message: string): (r: Response)
    ensures r.status == r.body.status == status && r.retryAfterHeader == None
  {
    Response(status, None, Envelope(error, message, status, None, None))
  }
}
