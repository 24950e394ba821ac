// The HTTP client wrapper: the request interceptor that attaches the bearer
// token, the response interceptor that tears the session down on a 401 and
// turns every failure into a uniform result, and the apiRequest helper.
module ApiClient {
  import opened Common
  import opened AuthSession

  /** The headers of an outgoing request. */
  class RequestConfig {
    var headers: map<string, string>

    constructor (h: map<string, string>)
      ensures headers == h
    {
      headers := h;
    }
  }

  /** The request interceptor's effect on the headers: `Authorization: Bearer t`
      exactly when storage holds a non-empty token t. */
  function WithAuth(headers: map<string, string>, token: Option<string>): (r: map<string, string>)
    ensures Truthy(token) ==> "Authorization" in r && r["Authorization"] == "Bearer " + token.value
    ensures Truthy(token) ==> forall k :: k in headers && k != "Authorization" ==> k in r && r[k] == headers[k]
    ensures !Truthy(token) ==> r == headers
  {
    if Truthy(token) then headers["Authorization" := "Bearer " + token.value] else headers
  }

  /** The request interceptor. */
  method AttachToken(config: RequestConfig, storage: BrowserStorage)
    modifies config
    ensures config.headers == WithAuth(old(config.headers), storage.authToken)
  {
    var token := storage.authToken;
    if Truthy(token) {
      config.headers := config.headers["Authorization" := "Bearer " + token.value];
    }
  }

  /** The JSON body of an error response, as far as the client reads it. */
  datatype ErrorBody = ErrorBody(message: Option<string>, error: Option<string>)

  datatype ServerResponse = ServerResponse(status: int, data: Option<ErrorBody>)

  /** A failed request as axios reports it: the requested url, the response if
      one came back, whether the request went out, the error code and message. */
  datatype HttpError = HttpError(url: Option<string>, response: Option<ServerResponse>, requestSent: bool,
                                 code: Option<string>, message: Option<string>)

  /** What every call resolves to: never a rejection. */
  datatype ApiResult<T> =
    | Ok(data: T)
    | Failed(error: string, details: Option<ErrorBody>, status: Option<int>)

  /** The error message chain: server message, then server error, then the status;
      a connection message when the request went out without an answer; the
      timeout message only when neither holds, and the error's own message
      otherwise. */
  function ErrorMessage(e: HttpError): (r: string)
    ensures e.response.Some? && e.response.value.data.Some? && Truthy(e.response.value.data.value.message)
            ==> r == e.response.value.data.value.message.value
    ensures e.response.Some? && e.response.value.data.Some? && !Truthy(e.response.value.data.value.message)
            && Truthy(e.response.value.data.value.error)
            ==> r == e.response.value.data.value.error.value
    ensures e.response.Some? && !(e.response.value.data.Some? && Truthy(e.response.value.data.value.message))
            && !(e.response.value.data.Some? && Truthy(e.response.value.data.value.error))
            ==> r == "Server Error " + IntToString(e.response.value.status)
    ensures e.response.None? && e.requestSent ==> r == ConnectionMessage
    ensures e.response.None? && !e.requestSent && e.code == Some("ECONNABORTED") ==> r == TimeoutMessage
    ensures e.response.None? && !e.requestSent && e.code != Some("ECONNABORTED") ==> r == OrElse(e.message, "Request failed")
  {
    if e.response.Some? then
      var d := e.response.value.data;
      if d.Some? && Truthy(d.value.message) then d.value.message.value
      else if d.Some? && Truthy(d.value.error) then d.value.error.value
      else "Server Error " + IntToString(e.response.value.status)
    else if e.requestSent then ConnectionMessage
    else if e.code == Some("ECONNABORTED") then TimeoutMessage
    else OrElse(e.message, "Request failed")
  }

  const ConnectionMessage := "Cannot connect to server. Please check your connection and try again."
  const TimeoutMessage := "Request timed out. Please try again."

  /** The 401 teardown covers every url but the login call (an absent url too). */
  predicate TearsDown(e: HttpError)
  {
    e.response.Some? && e.response.value.status == 401
    && !(e.url.Some? && Contains(e.url.value, "/auth/login"))
  }

  /** After a teardown the browser goes to /signin unless it is already on a login
      or sign-in page. */
  predicate RedirectsToSignIn(e: HttpError, pathname: string)
  {
    TearsDown(e) && !Contains(pathname, "/login") && !Contains(pathname, "/signin")
  }

  function FailureOf<T>(e: HttpError): (r: ApiResult<T>)
    ensures r.Failed? && r.error == ErrorMessage(e)
    ensures r.status == (if e.response.Some? then Some(e.response.value.status) else None)
  {
    Failed(ErrorMessage(e),
           if e.response.Some? then e.response.value.data else None,
           if e.response.Some? then Some(e.response.value.status) else None)
  }

  /** The response interceptor's error branch: it removes both storage keys on a
      teardown, says whether it redirects, and resolves to a failure result. */
  method OnError<T>(e: HttpError, pathname: string, storage: BrowserStorage)
    returns (result: ApiResult<T>, redirect: bool)
    modifies storage
    ensures result == FailureOf(e)
    ensures redirect == RedirectsToSignIn(e, pathname)
    ensures TearsDown(e) ==> storage.authToken == None && storage.currentUser == None
    ensures !TearsDown(e) ==> storage.authToken == old(storage.authToken) && storage.currentUser == old(storage.currentUser)
  {
    redirect := false;
    if TearsDown(e) {
      storage.authToken := None;
      storage.currentUser := None;
      if !Contains(pathname, "/login") && !Contains(pathname, "/signin") {
        redirect := true;
      }
    }
    result := FailureOf(e);
  }

  /** A 401 from the login call itself leaves the stored session alone. */
  lemma LoginFailureKeepsSession(e: HttpError)
    requires e.url.Some? && Contains(e.url.value, "/auth/login")
    ensures !TearsDown(e) && !RedirectsToSignIn(e, "/")
  {
  }

  /** The method apiRequest sends: `options.method || 'GET'`, which the spread of
      `options` then overrides with whatever method was given, even an empty one. */
  function RequestMethod(given: Option<string>): (r: string)
    ensures given.None? ==> r == "GET"
    ensures given.Some? ==> r == given.value
  {
    if given.Some? then given.value else "GET"
  }

  /** How the underlying call ended: resolved by the interceptors, or thrown. */
  datatype Transport<T> =
    | Resolved(result: ApiResult<T>)
    | Threw(error: Option<string>, message: Option<string>, details: Option<ErrorBody>, status: Option<int>)

  /** apiRequest: a resolved result is passed on unchanged; a thrown error becomes
      a failure result. */
  function ApiRequest<T>(t: Transport<T>): (r: ApiResult<T>)
    ensures t.Resolved? ==> r == t.result
    ensures t.Threw? ==> r.Failed? && r.details == t.details && r.status == t.status
    ensures t.Threw? && Truthy(t.error) ==> r.error == t.error.value
  {
    match t
    case Resolved(res) => res
    case Threw(err, msg, details, status) => Failed(OrElse(Or(err, msg), "Request failed"), details, status)
  }
}
