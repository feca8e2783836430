# Firestore REST access layer: retry, classification and request shaping

A Dafny model of the part of `firestore-db-and-auth-rs` that sits between application code and
the HTTP transport:

- **Retry driver** (`backoff.dfy`, module `Backoff`). `exp_backoff` runs a fallible operation
  under an exponential backoff whose elapsed-time budget is `max_elapsed_time` seconds (30 by
  default) and returns the bare error whether the failure was permanent or the budget ran out.
  The crate's schedule is modelled on an integer millisecond clock: the k-th call returns
  `op(k)`, takes `attemptTime(k)`, and a transient failure is followed by a positive
  `interval(k)` sleep unless the time elapsed since the first call exceeds the budget.
  `RetryFrom`/`Retry` state that loop as a function; the method `ExpBackoff` runs it as a loop
  and is proved equal to it.
- **Status classifier** (`RetryableHttpStatus`): 408, 409, 429 and every 5xx.
- **Attempt classification** (`documents.dfy`, module `Documents`). One try of a read or a query:
  a failed send is permanent, a 2xx response passes unchanged, any other response becomes an API
  error about the requested resource, transient exactly when its status is retryable.
- **Read** (`read.dfy`): the document name `projects/<project>/databases/(default)/documents/<path>/<id>`
  and the retried GET.
- **Query** (`query.dfy`): the structured query built from an optional filter and an ordering
  list, the retried POST, and the `Query` iterator, a class holding the envelopes and the
  position of its vector iterator, whose `Next` skips envelopes without a document.
- **Write and create** (`write.dfy`): the URL with its field mask (one entry per document
  field, in the map's iteration order), PATCH with an id and POST without, one send and no
  retry, the returned name reduced to its last path component (`stdpath.dfy`, Rust's
  `Path::file_name`), and the optional timestamps.

Collaborators the core only calls through are parameters: the outcome of each send
(`transport: nat -> SendOutcome` for retried requests, one `reply` for writes), the URL helpers
(`collectionUrl`, `documentUrl`), `pod_to_document` (its result `converted`),
`resp.json()`/`document_to_pod` (`decode`, `toPod`), `serde_value_to_firebase_value`
(`convert`) and chrono's RFC 3339 parser (`parseRfc3339`). The wire value type and the field
operator type are type parameters.

A transport-level send failure is classified permanent and is never retried
(src/documents/read.rs:23, src/documents/query.rs:102).

The field keys are appended to the merge URL without percent-encoding, so
`Write.MaskQueryParameters` (the server reads back exactly one mask parameter per key) holds
only for keys without `&`.

## Model

| member | source | states |
|---|---|---|
| `Backoff.RetryableHttpStatus` | src/backoff.rs:36-39 | total on `u16`; retryable only for 4xx/5xx; every 5xx is retryable; a 4xx is retryable exactly when it is 408, 409 or 429 (so no 2xx and not 404) |
| `Backoff.ExpBackoff` | src/backoff.rs:23-34 | the loop makes exactly the calls of `Backoff.Retry` and returns its result with permanent and transient errors both collapsed to the bare error |
| `Backoff.RetryFrom` | src/backoff.rs:28-30 | the crate's retry loop from the k-th call on: call, stop on a success or a permanent failure, stop on a transient failure once the elapsed time exceeds the budget, otherwise sleep and call again; the k-th call is always made and the run lasts at least as long as it |
| `Backoff.Retry` | src/backoff.rs:28-30 | the retry loop from the first call: at least one call, and the run lasts at least as long as the first call; what it returns is stated by the lemmas below |
| `Backoff.Collapse` | src/backoff.rs:30-33 | the result is `Ok` exactly when the retry's is, with the same value; an error of either kind becomes the bare error it wraps |
| `Backoff.RetrySettles` | src/backoff.rs:28-33 | at least one call; every call before the last failed transiently; the last decides: success returned as is, permanent failure returned at once, transient failure returned only once the elapsed time exceeds the budget |
| `Backoff.RetryBounded` | src/backoff.rs:28-30 | whatever the operation does, the run makes at most budget + 2 calls (it terminates) |
| `Backoff.RetryFromOvershoot` | src/backoff.rs:28-30 | a run with one call ends after that call; otherwise it ends within the budget plus one backoff interval and one call |
| `Backoff.AlwaysTransientGivesUp` | src/backoff.rs:28-33 | an operation that always fails transiently is given up on with its last error, after the budget is exceeded, after finitely many calls |
| `Backoff.RetryIgnoresLaterCalls` | src/backoff.rs:30 | two operations that agree on the calls a run made give the same run: no further call is made after a success or a permanent failure |
| `Backoff.FirstCallDecisive` | src/backoff.rs:30-33 | a first call that succeeds or fails permanently is the only call and its value or error is returned unchanged |
| `Backoff.ErrorKindInvisible` | src/backoff.rs:30-33 | a permanent `e` and an exhausted-budget transient `e` give the caller the same `Err(e)` |
| `Backoff.ExpBackoffErrorOrigin` | src/backoff.rs:30-33 | what `exp_backoff` returns is the last call's outcome with the error kind dropped |
| `Documents.ClassifyAttempt` | src/documents/read.rs:16-36 | send failure is a permanent request error; ok exactly on 2xx, passing the response unchanged; otherwise an API error with the response's status, body and the given resource, transient iff the status is retryable |
| `Documents.Attempts` | src/documents/read.rs:17-37 | the closure handed to `exp_backoff`: its k-th call classifies the k-th send with the requested resource as error context (its effect on the retry is `Documents.AttemptsSettle`) |
| `Documents.AttemptsSettle` | src/documents/query.rs:94-118 | a retried request ends on a send failure, a success or a non-retryable status; every earlier response had a retryable status; the result is that response or the error made from it, naming the given resource |
| `Read.DocumentName` | src/documents/read.rs:99-104 | the name `projects/<project>/databases/(default)/documents/<path>/<id>`; its shape is `Read.DocumentNameShape` |
| `Read.DocumentNameShape` | src/documents/read.rs:99-105 | the name starts with `projects/<project>/databases/(default)/documents/` and its last path component is the document id |
| `Read.ReadByName` | src/documents/read.rs:10-43 | the GET is retried under the 30-second default budget (`Backoff.FirestoreRequestRetryMaxElapsedTime`, src/backoff.rs:7) with the document name as the error resource; an error is returned as is, a response is decoded |
| `Read.Read` | src/documents/read.rs:95-106 | reads by the name built from project, path and id, with the same retry and decoding |
| `Read.ReadNotFoundIsPermanent` | src/documents/read.rs:25-36 | a 404 gives after one call an API error with status 404 and the requested name |
| `Read.ReadSendFailureIsPermanent` | src/documents/read.rs:18-23 | a failed send ends the read after one call with the request error |
| `Read.ReadRetriesRetryableStatus` | src/documents/read.rs:16-39 | a retryable status within the budget is retried and a 2xx on the second call is returned |
| `Query.BuildStructuredQuery` | src/documents/query.rs:48-92 | selects all fields of exactly the given collection; no filter without a where value, else one field filter with the converted value, the operator and the field path; no ordering without pairs, else one ordering per pair in order, direction absent when ascending and `"desc"` otherwise |
| `Query.Direction` | src/documents/query.rs:83 | an ascending ordering carries no direction, any other the direction `"desc"` (used by `Query.BuildStructuredQuery`) |
| `Query.RunQuery` | src/documents/query.rs:40-123 | sends that query, retried under the default budget with the collection id as error resource; a null or absent body gives an empty iterator, otherwise one over the decoded envelopes |
| `Query.Query.constructor` | src/documents/query.rs:120-122 | the iterator starts at the first envelope; a null or absent body gives no documents |
| `Query.Query.Next` | src/documents/query.rs:232-239 | returns the document of the first remaining envelope that has one, consuming it and the document-less envelopes before it; returns `None` only with every envelope consumed and none carrying a document |
| `Query.Query.Drain` | src/documents/query.rs:228-240 | iterating to the end yields exactly the documents of the envelopes, in their order |
| `Query.DocumentsAt` | src/documents/query.rs:233-236 | every envelope with a document contributes it, after the documents of the envelopes before it |
| `Query.DocumentsOfOrigin` | src/documents/query.rs:233-238 | every yielded document comes from an envelope that carries it |
| `Write.MaskSuffix` | src/documents/write.rs:101-103 | one `&updateMask.fieldPaths=<k>` appended per key, in the keys' order (`Write.MaskSuffixAppend` adds one key at a time, as the loop does) |
| `Write.BuildWriteUrl` | src/documents/write.rs:91-104 | merge of a document with fields: base + `?currentDocument.exists=true` + one `&updateMask.fieldPaths=<k>` per key, each key exactly once; otherwise the base URL unchanged |
| `Write.MaskQueryParameters` | src/documents/write.rs:98-104 | split at `&`, that query string is the existence precondition followed by exactly one mask parameter per key, in order (for keys without `&`) |
| `Write.ParseTimestamp` | src/documents/write.rs:133-148 | absent stays `None`; present and parsable gives the parsed time; present and unparsable fails with the field's message |
| `Write.WriteResponse` | src/documents/write.rs:112-154 | send failure and every non-2xx status (retryable ones too) are errors with the given resource; a name without a file name, or an unparsable timestamp, fails the write; success exactly when none of these happens, with the file name as id and timestamps present exactly when sent |
| `Write.WriteResponseReturnsId` | src/documents/write.rs:125-131 | a reply naming `<parent>/<id>` with parsable timestamps returns `id` |
| `Write.Write` | src/documents/write.rs:81-155 | nothing is sent if the document does not convert; otherwise one request: PATCH iff an id is given (to the document URL), POST otherwise (to the collection URL), the URL built as above, body the converted document, and the reply shaped with the id (or the empty string) as error resource |
| `Write.Create` | src/documents/write.rs:251-304 | nothing is sent if the document does not convert; otherwise one POST to the collection URL + `documentId=<id>`, the reply shaped exactly as `Write.WriteResponse` states with the id as error resource (so a failed send, a non-2xx status, an undecodable body, a name without a file name and an unparsable timestamp all fail it) |
| `Write.CreateReturnsId` | src/documents/write.rs:263-303 | a converted document whose 2xx reply names `<parent>/<id>` with parsable timestamps is POSTed once and gives back `id` |
| `StdPath.FileName` | src/documents/write.rs:126-128 | a file name, when there is one, is a normal path component: not empty, `.` or `..`, without `/` |
| `StdPath.FileNameOfChild` | src/documents/write.rs:126-128 | `<parent>/<c>` has file name `c` for a normal component `c` |
| `StdPath.FileNameOfParentDir` | src/documents/write.rs:126-128 | a name ending in `/..` has no file name, so the write fails |
| `StdPath.FileNameOfEmpty` | src/documents/write.rs:126-128 | an empty name has no file name, so the write fails |
| `StdPath.FileNameIgnoresTrailing` | src/documents/write.rs:126-128 | a trailing `/` or `/.` does not change the file name |

## Left out

- The `_async` variants (`exp_backoff_async`, `read_by_name_async`, `read_async`, `query_async`, `write_async`, `create_async`): they repeat the blocking code and differ only in where they suspend; `ExpBackoff` stands for both retry drivers, whose budget configuration (src/backoff.rs:15-16 and 28-29) is identical.
- The `backoff` crate's schedule itself (initial interval, multiplier, jitter, maximum interval, wall-clock `Instant`, sleeping): the model takes the per-call durations and the positive sleep intervals as an abstract clock.
- HTTP clients, `send`, bearer tokens and the fresh token fetched on every attempt: credential and transport I/O; a send is an abstract outcome.
- The parsing of the error body in `extract_google_api_error`: it is not part of this model; the API error carries the raw body as its message.
- `firebase_url`, `firebase_url_extended`, `firebase_url_base`, `firebase_url_query`, `pod_to_document`, `document_to_pod`, `serde_value_to_firebase_value`, serde JSON decoding and the DTO field operators: not part of this model; they are parameters or type parameters.
- chrono's RFC 3339 parsing and the conversion to UTC: a parameter returning an optional time.
- The "No valid unicode in 'name' field" error of `write`/`create`: the name is a Rust `String`, so `to_str` cannot fail and the model has no such branch.
- `StructuredQuery` parts that `query` leaves at their defaults (cursors, offset, limit, composite and unary filters): never set, so not modelled.
- Write.MaskQueryParameters: stated only for field names without `&`, because the keys are not percent-encoded and a key containing `&` splits into several parameters.
