/**
 * What the document operations share: the library's error type, the REST document shape,
 * the error extraction applied to every response, and the classification of one attempt of
 * a retried request (the closure that `read_by_name` and `query` hand to `exp_backoff`).
 */
module Documents {
  import opened Wrappers
  import opened Http
  import opened Backoff

  datatype FirebaseError =
    | Generic(message: string)
    | APIError(code: u16, message: string, context: string)
    | Request(reason: string)

  /**
   * A REST document: resource name, fields (the wire values are left abstract as `V`) and the
   * server's create/update timestamps as the strings it sent.
   */
  datatype Document<V> = Document(name: string, fields: Option<map<string, V>>, createTime: Option<string>, updateTime: Option<string>)

  /**
   * `extract_google_api_error`: a 2xx response passes unchanged, any other becomes an API error
   * carrying the status and the resource the request was about.
   */
  function ExtractGoogleApiError(resp: Response, context: string): Result<Response, FirebaseError>
  {
    if IsSuccess(resp.status) then Ok(resp) else Err(APIError(resp.status, resp.body, context))
  }

  /** One attempt of a retried request, given what its send returned. */
  function ClassifyAttempt(send: SendOutcome, context: string): (r: Result<Response, BackoffError<FirebaseError>>)
    ensures send.SendFailed? ==> r == Err(Permanent(Request(send.reason)))
    ensures send.Sent? ==> (r.Ok? <==> IsSuccess(send.response.status))
    ensures r.Ok? ==> send.Sent? && r.value == send.response
    ensures send.Sent? && r.Err? ==>
      && r.error.err == APIError(send.response.status, send.response.body, context)
      && (r.error.Transient? <==> RetryableHttpStatus(send.response.status))
  {
    match send
    case SendFailed(reason) => Err(Permanent(Request(reason)))
    case Sent(resp) =>
      var status := resp.status;
      match ExtractGoogleApiError(resp, context)
      case Ok(newResp) => Ok(newResp)
      case Err(err) =>
        if RetryableHttpStatus(status) then Err(Transient(err)) else Err(Permanent(err))
  }

  /** The operation handed to `exp_backoff`: its k-th call sends for the k-th time. */
  function Attempts(transport: nat -> SendOutcome, context: string): nat -> Result<Response, BackoffError<FirebaseError>>
  {
    (k: nat) => ClassifyAttempt(transport(k), context)
  }

  /**
   * A retried request ends on its first response that is a success or a non-retryable error,
   * or on its first send failure; every response before it had a retryable status. What it
   * returns is that response, or the error made from it, with `context` as the resource.
   */
  lemma AttemptsSettle(transport: nat -> SendOutcome, context: string, clock: Clock, maxElapsedTime: u64)
    ensures var n := Retry(Attempts(transport, context), clock, BudgetMillis(maxElapsedTime)).calls;
      && 1 <= n
      && (forall j | 0 <= j < n - 1 :: transport(j).Sent? && RetryableHttpStatus(transport(j).response.status))
      && match transport(n - 1)
         case SendFailed(reason) => ExpBackoffResult(Attempts(transport, context), clock, maxElapsedTime) == Err(Request(reason))
         case Sent(resp) =>
           ExpBackoffResult(Attempts(transport, context), clock, maxElapsedTime)
             == if IsSuccess(resp.status) then Ok(resp) else Err(APIError(resp.status, resp.body, context))
  {
    var op := Attempts(transport, context);
    RetrySettles(op, clock, BudgetMillis(maxElapsedTime));
    var n := Retry(op, clock, BudgetMillis(maxElapsedTime)).calls;
    forall j | 0 <= j < n - 1
      ensures transport(j).Sent? && RetryableHttpStatus(transport(j).response.status)
    {
      assert IsTransient(op(j));
    }
    assert op(n - 1) == ClassifyAttempt(transport(n - 1), context);
  }
}
