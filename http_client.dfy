/**
 * The HTTP client side of the playground: the response type with its `isOK`
 * test, the result type a client reports, the decision URLSessionHTTPClient
 * makes over what a data task hands back, and the cancellable task a client
 * returns. URLSession itself is not modelled: a data task's callback arguments
 * are parameters.
 */
module HttpClient {
  import opened Results

  type Byte = bv8

  /** Foundation's `Data`: a byte buffer. */
  type Data = seq<Byte>

  /** The only status code the loader accepts. */
  const OK_200: int := 200

  /** `HTTPURLResponse`, reduced to its status code. */
  datatype HttpUrlResponse = HttpUrlResponse(statusCode: int) {
    /** `isOK`: the status is 200. */
    predicate IsOK()
    {
      statusCode == OK_200
    }
  }

  /** The `URLResponse` a data task reports: an HTTP response, or some other kind. */
  datatype UrlResponse = Http(http: HttpUrlResponse) | NonHttp

  /** An error URLSession reports; its detail is an opaque code. */
  datatype SessionError = SessionError(code: int)

  /** The errors a client can fail with: URLSession's own, or the synthetic one. */
  datatype TransportError = Platform(cause: SessionError) | UnexpectedValuesRepresentation

  /** `HTTPClient.Result`: the body and response, or an error. */
  type ClientResult = Result<(Data, HttpUrlResponse), TransportError>

  /**
   * The outcome URLSessionHTTPClient.get builds from the optional triple a
   * data task hands its callback. An error wins over anything else; then a
   * body together with an HTTP response is a success; every other combination
   * is the synthetic UnexpectedValuesRepresentation failure.
   */
  function SessionOutcome(data: Option<Data>, response: Option<UrlResponse>, error: Option<SessionError>): (r: ClientResult)
    ensures error.Some? ==> r == Failure(Platform(error.value))
    ensures r.Success? <==> error.None? && data.Some? && response.Some? && response.value.Http?
    ensures r.Success? ==> r.value.0 == data.value && r.value.1 == response.value.http
    ensures r.Failure? ==> (r.error == UnexpectedValuesRepresentation <==> error.None?)
  {
    if error.Some? then
      Failure(Platform(error.value))
    else if data.Some? && response.Some? && response.value.Http? then
      Success((data.value, response.value.http))
    else
      Failure(UnexpectedValuesRepresentation)
  }

  /** The error, when present, decides the outcome whatever the body and response were. */
  lemma ErrorTakesPrecedence(data1: Option<Data>, response1: Option<UrlResponse>,
                             data2: Option<Data>, response2: Option<UrlResponse>, e: SessionError)
    ensures SessionOutcome(data1, response1, Some(e)) == SessionOutcome(data2, response2, Some(e))
  {
  }

  /**
   * The task a client returns (`HTTPClientTask`, implemented by
   * URLSessionTaskWrapper around a URLSession task). The model records only
   * how many times it was asked to cancel.
   */
  class TransportTask {
    var cancels: nat

    constructor ()
      ensures cancels == 0
    {
      cancels := 0;
    }

    /** `cancel`: forwarded to the platform task, which the model reduces to a count. */
    method Cancel()
      modifies this
      ensures cancels == old(cancels) + 1
    {
      cancels := cancels + 1;
    }
  }
}
