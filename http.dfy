/** The configured axios instance: its request interceptor (bearer token) and its response-error
    interceptor (timeout / network classification and the global reaction to 401). */
module Http {
  import opened Wrappers
  import opened Js
  import Text
  import Web

  /** What the transport delivers for one request: a 2xx response with its body, or a rejection with
      axios's error code, its message and, when the server answered, the response. */
  datatype Outcome =
    | Resolved(status: nat, body: Json)
    | Rejected(code: string, message: string, response: Option<ErrorResponse>)

  /** The axios response object a resolved call yields. */
  datatype Response = Response(status: nat, data: Json)

  const AUTHORIZATION := "Authorization"
  const USERS_ROUTE := "/api/users"
  const DEFAULT_HEADERS: map<string, string> := map["Content-Type" := "application/json"]
  const TIMEOUT_CODE := "ECONNABORTED"
  const TIMEOUT_MESSAGE := "Request timeout - please try again"
  const NETWORK_MESSAGE := "Network error - please check your connection"
  const LOGIN_PATH := "/login"

  /** The request interceptor adds a bearer header: the URL is not a user route and a non-empty token is stored. */
  predicate AttachesToken(url: string, storage: map<string, string>) {
    && !Text.Contains(url, USERS_ROUTE)
    && Web.ADMIN_TOKEN in storage
    && storage[Web.ADMIN_TOKEN] != ""
  }

  /** The headers after the request interceptor. */
  function WithToken(url: string, headers: map<string, string>, storage: map<string, string>): (h: map<string, string>)
    ensures forall k :: k in headers ==> k in h
    ensures forall k :: k in h && k != AUTHORIZATION ==> k in headers && h[k] == headers[k]
  {
    if AttachesToken(url, storage) then headers[AUTHORIZATION := "Bearer " + storage[Web.ADMIN_TOKEN]]
    else headers
  }

  /** The mutable request configuration the interceptor receives. */
  class RequestConfig {
    var url: string
    var headers: map<string, string>

    constructor (url0: string, headers0: map<string, string>)
      ensures url == url0 && headers == headers0
    {
      url := url0;
      headers := headers0;
    }
  }

  /** The request interceptor: writes `Authorization` into `config.headers` and nothing else. */
  method InterceptRequest(config: RequestConfig, browser: Web.Browser)
    modifies config
    ensures config.url == old(config.url)
    ensures config.headers == WithToken(config.url, old(config.headers), browser.storage)
  {
    if !Text.Contains(config.url, USERS_ROUTE) {
      var token := Web.GetItem(browser.storage, Web.ADMIN_TOKEN);
      if token.Some? && token.value != "" {
        config.headers := config.headers[AUTHORIZATION := "Bearer " + token.value];
      }
    }
  }

  /** The error a rejected request is re-rejected with. */
  function Rejection(code: string, message: string, response: Option<ErrorResponse>): Error {
    if code == TIMEOUT_CODE then Error(TIMEOUT_MESSAGE, None)
    else if response.None? then Error(NETWORK_MESSAGE, None)
    else Error(message, response)
  }

  /** The response interceptor clears the session: a non-timeout rejection that carries a 401 response. */
  predicate ClearsSession(code: string, response: Option<ErrorResponse>) {
    code != TIMEOUT_CODE && response.Some? && response.value.status == 401
  }

  /** The response-error interceptor: classifies the error and, on 401, drops the token and assigns the
      login page to `window.location.href`, which reloads the application (`App.ReloadAfter401`). */
  method InterceptResponseError(code: string, message: string, response: Option<ErrorResponse>, browser: Web.Browser)
    returns (e: Error)
    modifies browser
    ensures e == Rejection(code, message, response)
    ensures browser.storage == if ClearsSession(code, response) then old(browser.storage) - {Web.ADMIN_TOKEN}
                               else old(browser.storage)
    ensures browser.location == if ClearsSession(code, response) then LOGIN_PATH else old(browser.location)
  {
    if code == TIMEOUT_CODE {
      return Error(TIMEOUT_MESSAGE, None);
    }
    if response.None? {
      return Error(NETWORK_MESSAGE, None);
    }
    if response.value.status == 401 {
      browser.RemoveItem(Web.ADMIN_TOKEN);
      browser.GoTo(LOGIN_PATH);
    }
    e := Error(message, response);
  }

  /** How a call on the configured instance settles. */
  function Settle(o: Outcome): Result<Response, Error> {
    match o
    case Resolved(status, body) => Ok(Response(status, body))
    case Rejected(code, message, response) => Err(Rejection(code, message, response))
  }

  /** How a call on the bare axios export settles: no interceptor, the error is axios's own. */
  function SettlePlain(o: Outcome): Result<Response, Error> {
    match o
    case Resolved(status, body) => Ok(Response(status, body))
    case Rejected(_, message, response) => Err(Error(message, response))
  }

  predicate Unauthorized(o: Outcome) {
    o.Rejected? && ClearsSession(o.code, o.response)
  }

  function StorageAfter(o: Outcome, storage: map<string, string>): map<string, string> {
    if Unauthorized(o) then storage - {Web.ADMIN_TOKEN} else storage
  }

  function LocationAfter(o: Outcome, location: string): string {
    if Unauthorized(o) then LOGIN_PATH else location
  }

  /** One request on the configured instance, with the headers the call site configures: the headers it
      carries once intercepted, and how it settles. */
  method Send(url: string, headers: map<string, string>, o: Outcome, browser: Web.Browser)
    returns (sent: map<string, string>, r: Result<Response, Error>)
    modifies browser
    ensures sent == WithToken(url, headers, old(browser.storage))
    ensures r == Settle(o)
    ensures browser.storage == StorageAfter(o, old(browser.storage))
    ensures browser.location == LocationAfter(o, old(browser.location))
  {
    var config := new RequestConfig(url, headers);
    InterceptRequest(config, browser);
    sent := config.headers;
    match o
    case Resolved(status, body) =>
      r := Ok(Response(status, body));
    case Rejected(code, message, response) =>
      var e := InterceptResponseError(code, message, response, browser);
      r := Err(e);
  }

  /** A request carries `Authorization: Bearer <token>` exactly when the interceptor attaches one;
      otherwise the default headers go out unchanged. */
  lemma BearerHeader(url: string, storage: map<string, string>)
    ensures AUTHORIZATION in WithToken(url, DEFAULT_HEADERS, storage) <==> AttachesToken(url, storage)
    ensures AttachesToken(url, storage) ==>
              WithToken(url, DEFAULT_HEADERS, storage)[AUTHORIZATION] == "Bearer " + storage[Web.ADMIN_TOKEN]
    ensures !AttachesToken(url, storage) ==> WithToken(url, DEFAULT_HEADERS, storage) == DEFAULT_HEADERS
  {
    assert "Content-Type" != AUTHORIZATION;
  }

  /** Any URL with `/api/users` in it goes out without a bearer header, whatever is stored. */
  lemma UserRoutesCarryNoToken(before: string, after: string, headers: map<string, string>, storage: map<string, string>)
    ensures WithToken(before + USERS_ROUTE + after, headers, storage) == headers
  {
    Text.ContainsInfix(before, USERS_ROUTE, after);
  }

  /** The promise of a call on the instance is rejected exactly when the request was; a timeout and a failure
      without a response both lose the response, so only an answered, non-timeout failure shows a status. */
  lemma RejectionClassification(o: Outcome)
    ensures Settle(o).Err? <==> o.Rejected?
    ensures o.Rejected? && o.code == TIMEOUT_CODE ==> Settle(o) == Err(Error(TIMEOUT_MESSAGE, None))
    ensures o.Rejected? && o.code != TIMEOUT_CODE && o.response.None? ==> Settle(o) == Err(Error(NETWORK_MESSAGE, None))
    ensures Settle(o).Err? && Settle(o).error.response.Some? <==>
              o.Rejected? && o.code != TIMEOUT_CODE && o.response.Some?
    ensures Settle(o).Err? && Settle(o).error.response.Some? ==> Settle(o).error == Error(o.message, o.response)
  {
  }

  /** Only a non-timeout 401 rejection touches storage or location, and then it removes just `adminToken`
      and moves to `/login`. */
  lemma OnlyUnauthorizedResetsSession(o: Outcome, storage: map<string, string>, location: string)
    ensures StorageAfter(o, storage) != storage ==> Unauthorized(o) && Web.ADMIN_TOKEN in storage
    ensures LocationAfter(o, location) != location ==> Unauthorized(o)
    ensures Unauthorized(o) ==> Web.ADMIN_TOKEN !in StorageAfter(o, storage) && LocationAfter(o, location) == LOGIN_PATH
    ensures forall k :: k != Web.ADMIN_TOKEN ==> Web.GetItem(StorageAfter(o, storage), k) == Web.GetItem(storage, k)
  {
  }
}
