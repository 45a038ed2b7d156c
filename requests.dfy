/**
 * The request/response layer of the ksqlDB client (requests.go).
 *
 * Request construction: a POST to an endpoint URL resolved by the transport,
 * with an `Authorization: Basic ...` header only when the transport reports
 * basic-auth credentials.
 *
 * GET response handling: how a transport failure, a body-read failure, a
 * non-200 status and a deferred body-close failure combine into one result
 * and one error.
 *
 * The foreign calls (http.NewRequestWithContext, httpClient.Get,
 * ioutil.ReadAll, Body.Close, json.Unmarshal) are given as their outcomes.
 */
module Requests {
  import opened Wrappers
  import opened GoErrors

  type Bytes = seq<bv8>

  /** Endpoint names handed to the transport's GetUrl. */
  const KSQL_ENDPOINT: string := "/ksql"
  const QUERY_STREAM_ENDPOINT: string := "/query-stream"

  const POST: string := "POST"
  const StatusOK: int := 200

  const AUTHORIZATION: string := "Authorization"
  const CREATE_REQUEST_PREFIX: string := "can't create new request with context: "
  const SERVER_ERROR_PREFIX: string := "ksqldb error: "
  const GET_FAILED_PREFIX: string := "ksqldb get request failed: "
  const READ_FAILED_PREFIX: string := "could not read response body: "

  /** The part of the transport capability (net.HTTPClient) the builders use:
      endpoint resolution and the basic-auth credentials. */
  datatype Api = Api(getUrl: string -> string, basicAuth: string)

  /** The failure, if any, that http.NewRequestWithContext reports for a
      method and a URL. */
  type RequestFactory = (string, string) -> Option<Error>

  // ---------------------------------------------------------------------
  // Request construction
  // ---------------------------------------------------------------------

  /** An unsent HTTP request (`verb` is its HTTP method); only its header is
      changed after creation. */
  class HttpRequest {
    const verb: string
    const url: string
    const payload: Bytes
    var header: map<string, seq<string>>

    /** http.NewRequestWithContext on success: no header yet. */
    constructor (verb: string, url: string, payload: Bytes)
      ensures this.verb == verb && this.url == url && this.payload == payload
      ensures header == map[]
    {
      this.verb := verb;
      this.url := url;
      this.payload := payload;
      header := map[];
    }

    /** `Header.Add(key, value)`: appends `value` to the values of `key`. */
    method Add(key: string, value: string)
      modifies this
      ensures header == old(header)[key := HeaderValues(old(header), key) + [value]]
    {
      header := header[key := HeaderValues(header, key) + [value]];
    }
  }

  function HeaderValues(h: map<string, seq<string>>, key: string): seq<string>
  {
    if key in h then h[key] else []
  }

  /** The header a freshly built request ends with: an Authorization entry
      carrying `"Basic " + credentials` exactly when credentials are given. */
  function AuthHeader(credentials: string): (h: map<string, seq<string>>)
    ensures AUTHORIZATION in h <==> credentials != ""
    ensures credentials != "" ==> h[AUTHORIZATION] == ["Basic " + credentials]
    ensures h.Keys <= {AUTHORIZATION}
  {
    if credentials != "" then map[AUTHORIZATION := ["Basic " + credentials]] else map[]
  }

  /** The error newPostRequest returns when the request cannot be created:
      the cause wrapped with %w behind a fixed prefix. */
  function CreateRequestError(cause: Error): (e: Error)
    ensures Unwrap(e) == Some(cause)
    ensures Is(e, cause) && e != cause
    ensures Message(e) == CREATE_REQUEST_PREFIX + Message(cause)
  {
    WrapError(CREATE_REQUEST_PREFIX, cause)
  }

  /** Common tail of both builders once the request exists: add the
      Authorization header when the transport has credentials. */
  method AddBasicAuth(api: Api, req: HttpRequest)
    requires req.header == map[]
    modifies req
    ensures req.header == AuthHeader(api.basicAuth)
  {
    if api.basicAuth != "" {
      req.Add(AUTHORIZATION, "Basic " + api.basicAuth);
      assert HeaderValues(map[], AUTHORIZATION) + ["Basic " + api.basicAuth] == ["Basic " + api.basicAuth];
    }
  }

  /** newKsqlRequest: a POST to the command endpoint; a construction failure
      is returned unwrapped. */
  method NewKsqlRequest(api: Api, newRequest: RequestFactory, payload: Bytes)
    returns (req: HttpRequest?, err: Option<Error>)
    ensures err == newRequest(POST, api.getUrl(KSQL_ENDPOINT))
    ensures req == null <==> err.Some?
    ensures req != null ==>
      (fresh(req) && req.verb == POST && req.url == api.getUrl(KSQL_ENDPOINT)
       && req.payload == payload && req.header == AuthHeader(api.basicAuth))
  {
    var url := api.getUrl(KSQL_ENDPOINT);
    err := newRequest(POST, url);
    if err.Some? {
      return null, err;
    }
    req := new HttpRequest(POST, url, payload);
    AddBasicAuth(api, req);
  }

  /** newPostRequest: a POST to any endpoint; a construction failure is
      wrapped by CreateRequestError. */
  method NewPostRequest(api: Api, newRequest: RequestFactory, endpoint: string, payload: Bytes)
    returns (req: HttpRequest?, err: Option<Error>)
    ensures req == null <==> err.Some?
    ensures err.Some? ==>
      (newRequest(POST, api.getUrl(endpoint)).Some?
       && err.value == CreateRequestError(newRequest(POST, api.getUrl(endpoint)).value))
    ensures err.None? <==> newRequest(POST, api.getUrl(endpoint)).None?
    ensures req != null ==>
      (fresh(req) && req.verb == POST && req.url == api.getUrl(endpoint)
       && req.payload == payload && req.header == AuthHeader(api.basicAuth))
  {
    var url := api.getUrl(endpoint);
    var failure := newRequest(POST, url);
    if failure.Some? {
      return null, Some(CreateRequestError(failure.value));
    }
    req := new HttpRequest(POST, url, payload);
    AddBasicAuth(api, req);
    err := None;
  }

  /** newQueryStreamRequest: exactly newPostRequest on the query-stream
      endpoint, request and error passed through. */
  method NewQueryStreamRequest(api: Api, newRequest: RequestFactory, payload: Bytes)
    returns (req: HttpRequest?, err: Option<Error>)
    ensures req == null <==> err.Some?
    ensures err.Some? ==>
      (newRequest(POST, api.getUrl(QUERY_STREAM_ENDPOINT)).Some?
       && err.value == CreateRequestError(newRequest(POST, api.getUrl(QUERY_STREAM_ENDPOINT)).value))
    ensures err.None? <==> newRequest(POST, api.getUrl(QUERY_STREAM_ENDPOINT)).None?
    ensures req != null ==>
      (fresh(req) && req.verb == POST && req.url == api.getUrl(QUERY_STREAM_ENDPOINT)
       && req.payload == payload && req.header == AuthHeader(api.basicAuth))
  {
    req, err := NewPostRequest(api, newRequest, QUERY_STREAM_ENDPOINT, payload);
    if err.Some? {
      return req, err;
    }
    return req, None;
  }

  // ---------------------------------------------------------------------
  // GET response handling
  // ---------------------------------------------------------------------

  /** handleRequestError: the error for a non-200 answer. A body that does
      not decode gives a %w-wrapped decode error; otherwise the decoded
      ResponseError is itself the error. The status code plays no part. */
  function HandleRequestError(code: int, buf: Bytes, unmarshal: Bytes -> Result<ResponseError, Error>): (e: Error)
    ensures e.Server? <==> unmarshal(buf).Success?
    ensures unmarshal(buf).Success? ==> e.response == unmarshal(buf).value
    ensures unmarshal(buf).Failure? ==>
      Unwrap(e) == Some(unmarshal(buf).error)
      && Message(e) == SERVER_ERROR_PREFIX + Message(unmarshal(buf).error)
  {
    match unmarshal(buf)
    case Failure(cause) => WrapError(SERVER_ERROR_PREFIX, cause)
    case Success(ksqlError) => Server(ksqlError)
  }

  /** What happens to a response body, in order. */
  datatype BodyEvent = Drained | Closed

  /** A response body as the transport hands it over: what draining it
      answers, what closing it answers, and the history of what was done
      to it. */
  class ResponseBody {
    const read: Result<Bytes, Error>
    const closeError: Option<Error>
    ghost var events: seq<BodyEvent>

    constructor (read: Result<Bytes, Error>, closeError: Option<Error>)
      ensures this.read == read && this.closeError == closeError && events == []
    {
      this.read := read;
      this.closeError := closeError;
      events := [];
    }

    /** ioutil.ReadAll(body): only a body that is still open can be drained. */
    method ReadAll() returns (data: Bytes, err: Option<Error>)
      requires Closed !in events
      modifies this
      ensures events == old(events) + [Drained]
      ensures err.Some? <==> read.Failure?
      ensures read.Failure? ==> err.value == read.error
      ensures read.Success? ==> data == read.value
    {
      events := events + [Drained];
      match read
      case Success(bytes) => data, err := bytes, None;
      case Failure(cause) => data, err := [], Some(cause);
    }

    /** body.Close(). */
    method Close() returns (err: Option<Error>)
      modifies this
      ensures events == old(events) + [Closed]
      ensures err == closeError
    {
      events := events + [Closed];
      err := closeError;
    }
  }

  datatype HttpResponse = HttpResponse(statusCode: int, body: ResponseBody)

  /** What httpClient.Get(ctx, url) answered. */
  datatype GetOutcome = GetFailed(cause: Error) | GetOk(response: HttpResponse)

  /** The same exchange seen as plain values: the three outcomes the policy
      depends on once the transport has answered. */
  datatype Exchange =
    | Refused(cause: Error)
    | Answered(status: int, read: Result<Bytes, Error>, close: Option<Error>)

  function Observe(got: GetOutcome): Exchange
  {
    match got
    case GetFailed(cause) => Refused(cause)
    case GetOk(res) => Answered(res.statusCode, res.body.read, res.body.closeError)
  }

  /** The named results of handleGetRequest after its deferred closure ran. */
  datatype GetResult = GetResult(result: Option<Bytes>, err: Option<Error>)

  /** handleGetRequest's error precedence: a transport failure, then a read
      failure, then a non-200 status; the close error only when none of them
      happened. A 200 answer that was read keeps its bytes even when the
      close then fails. */
  function GetPolicy(x: Exchange, unmarshal: Bytes -> Result<ResponseError, Error>): (g: GetResult)
    ensures g.result.Some? <==> x.Answered? && x.read.Success? && x.status == StatusOK
    ensures g.result.Some? ==> g.result.value == x.read.value
    ensures x.Refused? ==> g.err == Some(FormatError(GET_FAILED_PREFIX, x.cause))
    ensures x.Answered? && x.read.Failure? ==>
      g.err == Some(FormatError(READ_FAILED_PREFIX, x.read.error))
    ensures x.Answered? && x.read.Success? && x.status != StatusOK ==>
      g.err == Some(HandleRequestError(x.status, x.read.value, unmarshal))
    ensures x.Answered? && g.result.Some? ==> g.err == x.close
    ensures g.result.None? ==> g.err.Some?
    ensures g.err.None? <==> g.result.Some? && x.close.None?
  {
    match x
    case Refused(cause) =>
      GetResult(None, Some(FormatError(GET_FAILED_PREFIX, cause)))
    case Answered(status, read, close) =>
      var primary :=
        if read.Failure? then GetResult(None, Some(FormatError(READ_FAILED_PREFIX, read.error)))
        else if status != StatusOK then GetResult(None, Some(HandleRequestError(status, read.value, unmarshal)))
        else GetResult(Some(read.value), None);
      if primary.err.None? then primary.(err := close) else primary
  }

  /** handleGetRequest. Whenever Get succeeded, the body is drained once and
      then closed once; when Get failed there is no body to touch. */
  method HandleGetRequest(got: GetOutcome, unmarshal: Bytes -> Result<ResponseError, Error>)
    returns (result: Option<Bytes>, err: Option<Error>)
    requires got.GetOk? ==> got.response.body.events == []
    modifies if got.GetOk? then {got.response.body} else {}
    ensures GetResult(result, err) == GetPolicy(Observe(got), unmarshal)
    ensures got.GetOk? ==> got.response.body.events == [Drained, Closed]
  {
    if got.GetFailed? {
      return None, Some(FormatError(GET_FAILED_PREFIX, got.cause));
    }
    var res := got.response;
    var body, readErr := res.body.ReadAll();
    if readErr.Some? {
      result, err := None, Some(FormatError(READ_FAILED_PREFIX, readErr.value));
    } else if res.statusCode != StatusOK {
      result, err := None, Some(HandleRequestError(res.statusCode, body, unmarshal));
    } else {
      result, err := Some(body), None;
    }
    // the deferred closure, run on every return once Get has succeeded
    var berr := res.body.Close();
    if err.None? {
      err := berr;
    }
  }

  // ---------------------------------------------------------------------
  // Properties relating several calls
  // ---------------------------------------------------------------------

  /** A failed close never changes the result and never masks a read or
      status error: it shows only where the error would otherwise be nil. */
  lemma CloseNeverMasks(status: int, read: Result<Bytes, Error>, closeErr: Error,
                        unmarshal: Bytes -> Result<ResponseError, Error>)
    ensures GetPolicy(Answered(status, read, Some(closeErr)), unmarshal).result
         == GetPolicy(Answered(status, read, None), unmarshal).result
    ensures GetPolicy(Answered(status, read, None), unmarshal).err.Some? ==>
      GetPolicy(Answered(status, read, Some(closeErr)), unmarshal).err
        == GetPolicy(Answered(status, read, None), unmarshal).err
    ensures GetPolicy(Answered(status, read, None), unmarshal).err.None? ==>
      GetPolicy(Answered(status, read, Some(closeErr)), unmarshal).err == Some(closeErr)
  {
  }

  /** Any two non-200 statuses give the same outcome. */
  lemma StatusCodeIrrelevant(s1: int, s2: int, read: Result<Bytes, Error>, close: Option<Error>,
                             unmarshal: Bytes -> Result<ResponseError, Error>)
    requires s1 != StatusOK && s2 != StatusOK
    ensures GetPolicy(Answered(s1, read, close), unmarshal) == GetPolicy(Answered(s2, read, close), unmarshal)
  {
  }

  /** The builders and handleRequestError wrap with %w, so whatever the
      failing library call wrapped itself, its root cause stays reachable
      with errors.Is from the error the caller receives, and its text ends
      that error's message. */
  lemma {:induction false} CreateRequestErrorKeepsRootCause(cause: Error)
    ensures Is(CreateRequestError(cause), Root(cause))
    ensures IsSuffix(Message(Root(cause)), Message(CreateRequestError(cause)))
  {
    RootCauseSurvives(CreateRequestError(cause));
    assert Root(CreateRequestError(cause)) == Root(cause);
  }

  lemma {:induction false} DecodeErrorKeepsRootCause(code: int, buf: Bytes,
                                                      unmarshal: Bytes -> Result<ResponseError, Error>)
    requires unmarshal(buf).Failure?
    ensures Is(HandleRequestError(code, buf, unmarshal), Root(unmarshal(buf).error))
    ensures IsSuffix(Message(Root(unmarshal(buf).error)), Message(HandleRequestError(code, buf, unmarshal)))
  {
    var cause := unmarshal(buf).error;
    RootCauseSurvives(cause);
    IsTransitive(HandleRequestError(code, buf, unmarshal), cause, Root(cause));
    var m := Message(cause);
    var r := Message(Root(cause));
    assert (SERVER_ERROR_PREFIX + m)[|SERVER_ERROR_PREFIX + m| - |r|..] == m[|m| - |r|..];
  }

  /** handleGetRequest reports transport and read failures with %v: the
      cause can no longer be reached from the error, only its text. */
  lemma GetErrorsDropCause(x: Exchange, unmarshal: Bytes -> Result<ResponseError, Error>)
    requires x.Refused? || x.read.Failure?
    ensures Unwrap(GetPolicy(x, unmarshal).err.value) == None
    ensures GetPolicy(x, unmarshal).err.value.Formatted?
  {
  }

  /** The transport failure message the client reports for a failing Get
      whose cause reads "error". */
  lemma GetFailureMessage(unmarshal: Bytes -> Result<ResponseError, Error>)
    ensures Message(GetPolicy(Refused(Foreign("error")), unmarshal).err.value)
         == "ksqldb get request failed: error"
  {
  }
}
