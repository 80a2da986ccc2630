/** The status rule of `NetworkService.fetchData` (Stocks/Network/NetworkServiceType.swift).
    The URLSession round trip is an input: what the session returned for the request. */
module NetworkService {
  import opened Wrappers
  import opened Model
  import opened AppErrors

  /** The response object the session hands back: an HTTP response with its status, or some other kind. */
  datatype URLResponse = HTTPURLResponse(statusCode: int) | NonHTTPResponse

  /** What `URLSession.data(for:)` produced: the body and response, or the error it threw. */
  datatype SessionReply = Received(body: Bytes, response: URLResponse) | SessionFailed(error: Thrown)

  /** The success range `200..<300`. */
  predicate Accepted(response: URLResponse) {
    response.HTTPURLResponse? && 200 <= response.statusCode < 300
  }

  /** `fetchData(from:)` once the session call has happened. */
  function FetchData(reply: SessionReply): (r: Result<Bytes, Thrown>)
    ensures reply.SessionFailed? ==> r == Failure(reply.error)
    ensures reply.Received? ==> (r.Success? <==> Accepted(reply.response))
    ensures r.Success? ==> reply.Received? && r.value == reply.body
    ensures reply.Received? && r.Failure? ==> r.error == URLError(BadServerResponse)
  {
    match reply
    case SessionFailed(e) => Failure(e)
    case Received(body, response) =>
      if response.HTTPURLResponse? && 200 <= response.statusCode < 300 then Success(body)
      else Failure(URLError(BadServerResponse))
  }

  /** The edges of the range: 200 and 299 pass, 199 and 300 do not, and a non-HTTP response never does. */
  lemma StatusBoundaries(body: Bytes)
    ensures FetchData(Received(body, HTTPURLResponse(200))) == Success(body)
    ensures FetchData(Received(body, HTTPURLResponse(299))) == Success(body)
    ensures FetchData(Received(body, HTTPURLResponse(199))).Failure?
    ensures FetchData(Received(body, HTTPURLResponse(300))).Failure?
    ensures FetchData(Received(body, NonHTTPResponse)).Failure?
  {
  }

  /** A rejected response is classified by `AppError.map` as a network error. */
  lemma RejectionIsNetworkError(body: Bytes, response: URLResponse)
    requires !Accepted(response)
    ensures Map(FetchData(Received(body, response)).error).Network?
  {
  }
}
