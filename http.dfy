/** The slice of HTTP the library needs: status codes, responses, requests and the outcome of a send. */
module Http {

  /** Rust's `u16`, the type of an HTTP status code. */
  newtype u16 = x: int | 0 <= x < 0x1_0000

  /** A received response: its status and its (not yet decoded) body. */
  datatype Response = Response(status: u16, body: string)

  /** What one `send()` gives back: a response, or a transport-level failure. */
  datatype SendOutcome = Sent(response: Response) | SendFailed(reason: string)

  datatype Verb = GET | POST | PATCH

  datatype HttpRequest<B> = HttpRequest(verb: Verb, url: string, body: B)

  /** `StatusCode::is_success`: the 2xx range. */
  predicate IsSuccess(status: u16)
  {
    200 <= status < 300
  }
}
