/** The HTTP client's token rules (src/utils/apiClient.ts): the expiry test
    on the JWT `exp` claim, the request interceptor that adds a Bearer
    header (RFC 6750 section 2.1) or rejects an expired token, and the
    response interceptor that clears the tokens on 401 / 403. Leaving the
    page is the assignment of `location.href`; the Cognito login URL,
    built from the environment, is a parameter. */
module ApiClient {
  import opened Wrappers
  import opened Browser

  const IdTokenKey: string := "id_token"
  const AccessTokenKey: string := "access_token"
  const RedirectKey: string := "auth_redirect_url"
  const CallbackPath: string := "/callback"

  /** isTokenExpired: `exp < Date.now() / 1000`. An undecodable token counts
      as expired; a decoded token without `exp` compares `undefined`, which
      is never smaller, so it never expires. A token whose `exp` equals the
      current second is still valid. */
  function IsTokenExpired(token: string, decode: string -> Option<Claims>, nowMs: int): (r: bool)
    ensures decode(token).None? ==> r
    ensures decode(token).Some? && decode(token).value.exp.Some? ==>
      (r <==> (decode(token).value.exp.value as real) < (nowMs as real) / 1000.0)
    ensures decode(token).Some? && decode(token).value.exp.None? ==> !r
  {
    match decode(token)
    case None => true
    case Some(claims) => claims.exp.Some? && claims.exp.value * 1000 < nowMs
  }

  /** The parts of an axios request config the interceptor reads and writes. */
  datatype RequestConfig = RequestConfig(url: string, headers: map<string, string>)

  /** What the request interceptor hands on: the (possibly extended) config,
      or a rejected promise. */
  datatype RequestOutcome = Proceed(config: RequestConfig) | Reject(reason: string)

  /** `{...headers, Authorization: 'Bearer ' + token}`: the Authorization
      entry is set and every other header is kept. */
  function WithBearer(headers: map<string, string>, token: string): (r: map<string, string>)
    ensures "Authorization" in r && r["Authorization"] == "Bearer " + token
    ensures r.Keys == headers.Keys + {"Authorization"}
    ensures forall k :: k in headers && k != "Authorization" ==> r[k] == headers[k]
  {
    headers["Authorization" := "Bearer " + token]
  }

  /** The error an axios call fails with: the HTTP status when the server
      answered, none for a network failure. */
  datatype ApiError = ApiError(status: Option<int>)

  /** How the response-error interceptor settles: it rejects with the error,
      or returns a promise that never settles. */
  datatype ResponseOutcome = Rejected(error: ApiError) | NeverSettles

  /** 401 and 403 from the server mean the token was refused. */
  predicate IsAuthFailure(error: ApiError) {
    error.status.Some? && (error.status.value == 401 || error.status.value == 403)
  }

  /** The path saved to return to after login: pathname + search, unless
      that whole string is exactly "/callback". */
  function RedirectToSave(pathname: string, search: string): (r: Option<string>)
    ensures r.None? <==> pathname + search == CallbackPath
    ensures r.Some? ==> r.value == pathname + search
  {
    var currentPath := pathname + search;
    if currentPath != CallbackPath then Some(currentPath) else None
  }

  /** Only the exact string "/callback" is skipped: the callback page with
      any query string is still saved, query included. */
  lemma CallbackWithQueryIsSaved(search: string)
    ensures search != "" ==> RedirectToSave(CallbackPath, search) == Some(CallbackPath + search)
    ensures search == "" ==> RedirectToSave(CallbackPath, search) == None
  {
  }

  /** Storage after a token is dropped: both tokens gone, nothing else touched. */
  function WithoutTokens(items: map<string, string>): (r: map<string, string>)
    ensures IdTokenKey !in r && AccessTokenKey !in r
    ensures forall k :: k in items && k != IdTokenKey && k != AccessTokenKey ==> k in r && r[k] == items[k]
    ensures forall k :: k in r ==> k in items
  {
    items - {IdTokenKey, AccessTokenKey}
  }

  /** The request interceptor. No stored id_token (or an empty one): the
      config passes unchanged. An expired token: both tokens are removed,
      the browser is sent to the login page and the request is rejected. A
      valid token: the config gains the Bearer header. */
  method InterceptRequest(storage: LocalStorage, location: Location, config: RequestConfig,
                          decode: string -> Option<Claims>, nowMs: int, loginUrl: string)
    returns (outcome: RequestOutcome)
    modifies storage, location
    ensures var token := if IdTokenKey in old(storage.items) then Some(old(storage.items)[IdTokenKey]) else None;
      && (!Truthy(token) ==>
            outcome == Proceed(config) && storage.items == old(storage.items) && location.href == old(location.href))
      && (Truthy(token) && IsTokenExpired(token.value, decode, nowMs) ==>
            outcome == Reject("Token expired") && storage.items == WithoutTokens(old(storage.items))
            && location.href == loginUrl)
      && (Truthy(token) && !IsTokenExpired(token.value, decode, nowMs) ==>
            outcome == Proceed(config.(headers := WithBearer(config.headers, token.value)))
            && storage.items == old(storage.items) && location.href == old(location.href))
  {
    var token := storage.GetItem(IdTokenKey);
    if Truthy(token) {
      if IsTokenExpired(token.value, decode, nowMs) {
        storage.RemoveItem(IdTokenKey);
        storage.RemoveItem(AccessTokenKey);
        location.href := loginUrl;
        return Reject("Token expired");
      }
      var headers := config.headers["Authorization" := "Bearer " + token.value];
      return Proceed(config.(headers := headers));
    }
    return Proceed(config);
  }

  /** The response-error interceptor. On 401 or 403 both tokens are removed,
      the current path is saved unless it is exactly "/callback", the
      browser is sent to the login page and the promise never settles. Any
      other error is rejected unchanged and storage is left alone. */
  method InterceptResponseError(storage: LocalStorage, location: Location, error: ApiError, loginUrl: string)
    returns (outcome: ResponseOutcome)
    modifies storage, location
    ensures IsAuthFailure(error) ==>
      outcome == NeverSettles && location.href == loginUrl &&
      storage.items == match RedirectToSave(location.pathname, location.search)
                       case None => WithoutTokens(old(storage.items))
                       case Some(path) => WithoutTokens(old(storage.items))[RedirectKey := path]
    ensures !IsAuthFailure(error) ==>
      outcome == Rejected(error) && storage.items == old(storage.items) && location.href == old(location.href)
  {
    if IsAuthFailure(error) {
      storage.RemoveItem(IdTokenKey);
      storage.RemoveItem(AccessTokenKey);
      var currentPath := location.pathname + location.search;
      if currentPath != CallbackPath {
        storage.SetItem(RedirectKey, currentPath);
      }
      location.href := loginUrl;
      return NeverSettles;
    }
    return Rejected(error);
  }
}
