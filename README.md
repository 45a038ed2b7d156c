# ksqldb-go request/response layer in Dafny

This project models the request/response layer of the ksqlDB Go client,
`requests.go`. It has two parts.

- **Request construction.** `newKsqlRequest`, `newPostRequest` and
  `newQueryStreamRequest` build an unsent POST to an endpoint URL that the
  transport resolves. They add an `Authorization: Basic <credentials>` header
  only when the transport reports non-empty basic-auth credentials.
  `newKsqlRequest` returns a construction failure as it is.
  `newPostRequest` wraps it with `%w` behind `"can't create new request with context: "`.
  `newQueryStreamRequest` is `newPostRequest` on the query-stream endpoint.
- **GET response handling.** `handleGetRequest` and `handleRequestError` decide
  how four outcomes combine into one result and one error. The outcomes are a
  failing `Get`, a failing body read, a non-200 status and a failing deferred
  `Body.Close`.

Files:

- `wrappers.dfy`: `Option` and `Result`, standing for Go's nil-able values and `(value, error)` pairs.
- `go_errors.dfy`: Go error values as the file builds them. `fmt.Errorf` with
  `%w` keeps the cause reachable through `errors.Unwrap` and `errors.Is`. With
  `%v` it keeps only the cause's text. `requests.go` itself never calls
  `errors.Is`; the chain lemmas here are background facts about the errors it
  hands to its callers, used by the root-cause lemmas in `requests.dfy`.
- `requests.dfy`: the builders, `handleRequestError`, and `handleGetRequest`.
  - The builders use an `HttpRequest` class whose header map is updated in place.
  - `handleGetRequest` uses a `ResponseBody` class that records, in order,
    each drain and each close done to it.
  - `GetPolicy` is a value-level specification of the error precedence.
    The `HandleGetRequest` method is proved equal to it.

The foreign calls are given as their outcomes:

- `http.NewRequestWithContext` is a function from method and URL to an optional failure.
- `httpClient.Get` is a `GetOutcome`.
- `ioutil.ReadAll` and `Body.Close` are the answers stored in a `ResponseBody`.
- `json.Unmarshal` into a `ResponseError` is a function from bytes to a `Result`.

Behaviour of the code worth noting:

- A failing `Get` and a failing read are reported with `%v`, not `%w`.
  So the resulting error does not wrap its cause, and `errors.Is` cannot reach it (`FormatError`).
- On status 200 with a successful read, a failing close does not turn the call
  into a plain failure. The deferred closure only overwrites the named `err`,
  so the bytes are returned together with the close error (`GetPolicy`).
- Any status other than exactly 200 is treated as a server error, including the other 2xx codes.

## Model

| member | source | states |
|---|---|---|
| GoErrors.WrapError | requests.go:97 | a `%w` error unwraps to its cause, `errors.Is` reaches the cause, and its text is the prefix followed by the cause's text |
| GoErrors.FormatError | requests.go:70 | a `%v` error has the same text as the `%w` form but unwraps to nothing, so `errors.Is` matches the cause only if it is that very error |
| GoErrors.IsTransitive | requests.go:59 | a cause of a cause is a cause: wrapping a `%w` error again keeps every earlier cause reachable with `errors.Is` |
| GoErrors.RootCauseSurvives | requests.go:97 | after any number of `%w` layers, the root cause is reachable with `errors.Is`, wraps nothing itself, and its text ends the final message |
| Requests.AuthHeader | requests.go:41-43 | the built header has an `Authorization` entry iff the credentials are non-empty; its single value is then `"Basic " + credentials`, and there is no other key |
| Requests.HttpRequest.Add | requests.go:42 | `Header.Add` appends the value to the key's existing values and leaves the other keys alone |
| Requests.AddBasicAuth | requests.go:100-102 | starting from the empty header of a fresh request, the header ends as `AuthHeader(BasicAuth())` |
| Requests.CreateRequestError | requests.go:95-98 | the construction-failure error unwraps to the cause, differs from it, and reads `"can't create new request with context: " + cause` |
| Requests.NewKsqlRequest | requests.go:35-45 | the request is nil iff construction failed, and that failure is returned unwrapped; otherwise the result is a fresh POST to `GetUrl(KSQL_ENDPOINT)` carrying the payload and exactly the auth header |
| Requests.NewPostRequest | requests.go:94-105 | the request is nil iff construction failed, and then the error is the wrapped cause; otherwise the result is a fresh POST to `GetUrl(endpoint)` carrying the payload and exactly the auth header |
| Requests.NewQueryStreamRequest | requests.go:47-54 | returns what `newPostRequest` returns for the query-stream endpoint, both the request and the error |
| Requests.HandleRequestError | requests.go:56-64 | the error is the decoded `ResponseError` iff the body decodes; otherwise it is the decode error wrapped with `%w` behind `"ksqldb error: "`; the status code is not consulted |
| Requests.ResponseBody.ReadAll | requests.go:80 | draining a body that is not yet closed yields its bytes or its read error, and is recorded as one drain |
| Requests.ResponseBody.Close | requests.go:74 | every close is recorded once and answers the body's close outcome |
| Requests.GetPolicy | requests.go:66-92 | the result is present iff the status is 200 and the read succeeded, and it is then exactly the bytes read; a transport failure gives `"ksqldb get request failed: " + cause`; a read failure gives `"could not read response body: " + cause`; a non-200 status gives the `handleRequestError` error; the close error is surfaced only on the success path; the error is nil iff the result is present and the close succeeded |
| Requests.HandleGetRequest | requests.go:66-92 | the step-by-step method, with its deferred close, returns exactly `GetPolicy` of what the transport, the body and the decoder answered; once `Get` succeeded, the body's history is exactly one drain followed by exactly one close |
| Requests.CloseNeverMasks | requests.go:73-78 | a failing close never changes the result and never replaces a read or status error; it becomes the error only where the error would otherwise be nil |
| Requests.StatusCodeIrrelevant | requests.go:85-87 | any two non-200 statuses give the same result and error |
| Requests.CreateRequestErrorKeepsRootCause | requests.go:95-98 | the error a failing `newPostRequest` returns still reaches, with `errors.Is`, the root cause of the construction failure, and its message ends with that root cause's text |
| Requests.DecodeErrorKeepsRootCause | requests.go:58-59 | when the server error body does not decode, the returned error still reaches the decoder's root cause with `errors.Is`, and its message ends with that cause's text |
| Requests.GetErrorsDropCause | requests.go:68-83 | the errors `handleGetRequest` builds for a failed `Get` or a failed read unwrap to nothing: only the cause's text survives |
| Requests.GetFailureMessage | get_cluster_status_test.go:153 | a `Get` failing with cause text `error` is reported as `ksqldb get request failed: error` |

## Left out

- Context and cancellation: `ctx` is only passed on to `net/http`, so it is not modelled.
- Network I/O: the transport, the body reader and the JSON decoder appear only as the outcomes they report.
- Requests.HttpRequest.Add: does not canonicalise the header key as `http.Header.Add` does. The only key the file adds, `Authorization`, is already in canonical form.
- Requests.ResponseBody.ReadAll: on failure, `ioutil.ReadAll` also returns the bytes read so far. The model returns none, because `handleGetRequest` discards them.
- `KSQL_ENDPOINT` and `QUERY_STREAM_ENDPOINT` are declared in a file that is not part of this model. They are given the client's values `/ksql` and `/query-stream`. Only their being distinct is used.
- `ResponseError` is declared in a file that is not part of this model. It is reduced to the text its `Error` method returns.
- Error identity: errors are compared by value, not by pointer. Go's `errors.Is` compares the `*wrapError` and `*errorString` values that `fmt.Errorf` and `errors.New` build by pointer, so two separately built errors with equal text are equal here but not in Go. No path in `requests.go` depends on this.
- `BasicAuth()` is called twice in each builder (`requests.go:41-42`, `requests.go:100-101`). The model reads a single `basicAuth` value, so it assumes both calls answer the same.
- The `fmt.Printf` logging in `handleRequestError` has no effect on results and is not modelled.
- `response.go` declares only record types and has no functions. The `@type` discriminator of `KsqlResponse` is not enforced by any code in the modelled file.
- The pull query path, the query options and sanitiser, and the cluster-status decoding are not modelled. Their code is not part of this model.
