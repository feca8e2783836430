/**
 * Reading a document: by its full resource name (`read_by_name`), or by collection path and id
 * (`read`). The GET is retried under the default budget; the response body is then decoded and
 * mapped into the caller's type by `toPod`, a parameter standing for `resp.json()` followed by
 * `document_to_pod`.
 */
module Read {
  import opened Wrappers
  import opened Http
  import opened Backoff
  import opened Documents
  import opened StdPath

  /** The resource name `read` asks for. */
  function DocumentName(projectId: string, path: string, documentId: string): string
  {
    "projects/" + projectId + "/databases/(default)/documents/" + path + "/" + documentId
  }

  /**
   * The name lies in the project's default database, and its last component is the document id
   * (for an id that is a single normal path component).
   */
  lemma DocumentNameShape(projectId: string, path: string, documentId: string)
    requires IsNormalComponent(documentId)
    ensures var name := DocumentName(projectId, path, documentId);
      && name[..9] == "projects/"
      && name[9..9 + |projectId|] == projectId
      && name[9 + |projectId|..9 + |projectId| + 31] == "/databases/(default)/documents/"
      && FileName(name) == Some(documentId)
  {
    var parent := "projects/" + projectId + "/databases/(default)/documents/" + path;
    assert DocumentName(projectId, path, documentId) == parent + "/" + documentId;
    FileNameOfChild(parent, documentId);
  }

  /** `read_by_name`: retry the GET, then decode what came back. */
  method ReadByName<T>(documentName: string, transport: nat -> SendOutcome, clock: Clock, toPod: Response -> Result<T, FirebaseError>)
    returns (r: Result<T, FirebaseError>, calls: nat)
    ensures calls == Retry(Attempts(transport, documentName), clock, BudgetMillis(FirestoreRequestRetryMaxElapsedTime)).calls
    ensures match ExpBackoffResult(Attempts(transport, documentName), clock, FirestoreRequestRetryMaxElapsedTime)
      case Err(e) => r == Err(e)
      case Ok(resp) => r == toPod(resp)
  {
    var resp;
    resp, calls := ExpBackoff(Attempts(transport, documentName), clock, FirestoreRequestRetryMaxElapsedTime);
    match resp
    case Err(e) => r := Err(e);
    case Ok(newResp) => r := toPod(newResp);
  }

  /** `read`: `read_by_name` on the name built from the project, the collection path and the id. */
  method Read<T>(projectId: string, path: string, documentId: string, transport: nat -> SendOutcome, clock: Clock, toPod: Response -> Result<T, FirebaseError>)
    returns (r: Result<T, FirebaseError>, calls: nat)
    ensures var name := DocumentName(projectId, path, documentId);
      && calls == Retry(Attempts(transport, name), clock, BudgetMillis(FirestoreRequestRetryMaxElapsedTime)).calls
      && match ExpBackoffResult(Attempts(transport, name), clock, FirestoreRequestRetryMaxElapsedTime)
         case Err(e) => r == Err(e)
         case Ok(resp) => r == toPod(resp)
  {
    var documentName := DocumentName(projectId, path, documentId);
    r, calls := ReadByName(documentName, transport, clock, toPod);
  }

  /** A 404 is an API error about the document that was asked for, and it is not retried. */
  lemma ReadNotFoundIsPermanent(documentName: string, transport: nat -> SendOutcome, clock: Clock, body: string)
    requires transport(0) == Sent(Response(404, body))
    ensures Retry(Attempts(transport, documentName), clock, BudgetMillis(FirestoreRequestRetryMaxElapsedTime)).calls == 1
    ensures ExpBackoffResult(Attempts(transport, documentName), clock, FirestoreRequestRetryMaxElapsedTime)
      == Err(APIError(404, body, documentName))
  {
    FirstCallDecisive(Attempts(transport, documentName), clock, FirestoreRequestRetryMaxElapsedTime);
  }

  /** A send failure is not retried: the network error reaches the caller after one call. */
  lemma ReadSendFailureIsPermanent(documentName: string, transport: nat -> SendOutcome, clock: Clock)
    requires transport(0).SendFailed?
    ensures Retry(Attempts(transport, documentName), clock, BudgetMillis(FirestoreRequestRetryMaxElapsedTime)).calls == 1
    ensures ExpBackoffResult(Attempts(transport, documentName), clock, FirestoreRequestRetryMaxElapsedTime)
      == Err(Request(transport(0).reason))
  {
    FirstCallDecisive(Attempts(transport, documentName), clock, FirestoreRequestRetryMaxElapsedTime);
  }

  /** A retryable status within the budget is retried, and a success on the next call is returned. */
  lemma ReadRetriesRetryableStatus(documentName: string, transport: nat -> SendOutcome, clock: Clock, resp: Response)
    requires transport(0).Sent? && RetryableHttpStatus(transport(0).response.status)
    requires clock.attemptTime(0) <= BudgetMillis(FirestoreRequestRetryMaxElapsedTime)
    requires transport(1) == Sent(resp) && IsSuccess(resp.status)
    ensures Retry(Attempts(transport, documentName), clock, BudgetMillis(FirestoreRequestRetryMaxElapsedTime)).calls == 2
    ensures ExpBackoffResult(Attempts(transport, documentName), clock, FirestoreRequestRetryMaxElapsedTime) == Ok(resp)
  {
    var op := Attempts(transport, documentName);
    var budget := BudgetMillis(FirestoreRequestRetryMaxElapsedTime);
    assert op(0) == ClassifyAttempt(transport(0), documentName);
    assert op(1) == ClassifyAttempt(transport(1), documentName);
    assert Retry(op, clock, budget) == RetryFrom(op, clock, budget, 1, clock.attemptTime(0) + clock.interval(0));
  }
}
