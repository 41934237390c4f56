/** The OAuth redirect callback page (src/components/AuthCallback.tsx).
    Its effect reads the fragment of an implicit-grant response (section
    4.2.2 of RFC 6749, error form in section 4.2.2.1, plus `id_token` per
    section 3.2.2.5 of OpenID Connect Core 1.0) and otherwise the query of
    an authorization-code response (section 4.1.2 of RFC 6749). Parsing the
    fragment and the query (query-string), parseInt and the clock are
    inputs; navigation and history.replaceState are recorded in fields. */
module AuthCallback {
  import opened Wrappers
  import opened Browser
  import opened Strings

  /** A value of query-string's parse: a key with no '=' (null), a key seen
      once (a string) or a repeated key (an array). */
  datatype ParamValue = NoValue | Single(s: string) | Many(values: seq<string>)

  type Params = map<string, ParamValue>

  /** `Array.isArray(v) ? v[0] : v`: the first value of a repeated key. */
  function FirstValue(params: Params, key: string): (r: Option<string>)
    ensures key !in params || params[key].NoValue? ==> r == None
    ensures key in params && params[key].Single? ==> r == Some(params[key].s)
    ensures key in params && params[key].Many? && params[key].values != [] ==>
      r == Some(params[key].values[0])
  {
    if key !in params then None
    else match params[key]
      case NoValue => None
      case Single(s) => Some(s)
      case Many(values) => if values == [] then None else Some(values[0])
  }

  /** `if (parsed.key)` on the raw value: an array is truthy even when its
      strings are empty; a single string is truthy unless it is "". */
  predicate RawTruthy(params: Params, key: string) {
    key in params &&
    match params[key]
    case NoValue => false
    case Single(s) => s != ""
    case Many(_) => true
  }

  /** Which branch of the effect a callback takes. */
  datatype Branch =
    | HashError
    | ImplicitGrant(idToken: string, accessToken: string, expiresIn: Option<string>, tokenType: Option<string>)
    | QueryError
    | AuthorizationCode
    | NothingFound

  /** The decision of the effect: a fragment error wins; then both tokens in
      the fragment; only then is the query consulted, for an error and then
      for a code. */
  function Decide(hash: Params, query: Params): (r: Branch)
    ensures RawTruthy(hash, "error") <==> r.HashError?
    ensures r.ImplicitGrant? <==>
      !RawTruthy(hash, "error") && Truthy(FirstValue(hash, "id_token")) && Truthy(FirstValue(hash, "access_token"))
    ensures r.ImplicitGrant? ==>
      Some(r.idToken) == FirstValue(hash, "id_token") && Some(r.accessToken) == FirstValue(hash, "access_token") &&
      r.expiresIn == FirstValue(hash, "expires_in") && r.tokenType == FirstValue(hash, "token_type")
    ensures r.QueryError? ==> RawTruthy(query, "error")
    ensures r.AuthorizationCode? ==> !RawTruthy(query, "error") && RawTruthy(query, "code")
    ensures r.NothingFound? ==> !RawTruthy(query, "error") && !RawTruthy(query, "code")
  {
    var idToken := FirstValue(hash, "id_token");
    var accessToken := FirstValue(hash, "access_token");
    if RawTruthy(hash, "error") then HashError
    else if Truthy(idToken) && Truthy(accessToken) then
      ImplicitGrant(idToken.value, accessToken.value, FirstValue(hash, "expires_in"), FirstValue(hash, "token_type"))
    else if RawTruthy(query, "error") then QueryError
    else if RawTruthy(query, "code") then AuthorizationCode
    else NothingFound
  }

  /** The query string is consulted only when the fragment has neither an
      error nor both tokens. */
  lemma QueryOnlyAsFallback(hash: Params, q1: Params, q2: Params)
    requires RawTruthy(hash, "error") ||
      (Truthy(FirstValue(hash, "id_token")) && Truthy(FirstValue(hash, "access_token")))
    ensures Decide(hash, q1) == Decide(hash, q2)
  {
  }

  /** A repeated fragment key contributes its first value. */
  lemma RepeatedKeyFirstWins(idToken: string, other: string, accessToken: string)
    requires idToken != "" && accessToken != ""
    ensures Decide(map["id_token" := Many([idToken, other]), "access_token" := Single(accessToken)], map[])
      == ImplicitGrant(idToken, accessToken, None, None)
  {
  }

  /** The storage after a successful implicit grant: both tokens, the expiry
      instant in milliseconds when `expires_in` is present, and the token
      type, "Bearer" by default. */
  function StoredAfterGrant(items: map<string, string>, idToken: string, accessToken: string,
                            expiresIn: Option<string>, tokenType: Option<string>,
                            nowMs: int, parseInt: string -> int): (r: map<string, string>)
    ensures r.Keys == items.Keys + {"id_token", "access_token", "token_type"}
      + (if Truthy(expiresIn) then {"token_expiry"} else {})
    ensures r["id_token"] == idToken && r["access_token"] == accessToken
    ensures Truthy(expiresIn) ==>
      r["token_expiry"] == IntToString(nowMs + parseInt(expiresIn.value) * 1000)
    ensures !Truthy(expiresIn) && "token_expiry" in items ==>
      r["token_expiry"] == items["token_expiry"]
    ensures r["token_type"] == if Truthy(tokenType) then tokenType.value else "Bearer"
    ensures forall k :: k in items && k !in {"id_token", "access_token", "token_type", "token_expiry"} ==>
      r[k] == items[k]
  {
    var withTokens := items["id_token" := idToken]["access_token" := accessToken];
    var withExpiry :=
      if Truthy(expiresIn) then withTokens["token_expiry" := IntToString(nowMs + parseInt(expiresIn.value) * 1000)]
      else withTokens;
    withExpiry["token_type" := if Truthy(tokenType) then tokenType.value else "Bearer"]
  }

  /** What the page renders. */
  datatype View = Processing | LoginError(message: string) | Complete

  /** The page's state hooks, the user context's token, and the effects
      recorded as values: where the router was sent and whether the
      fragment was wiped from the address bar. */
  class CallbackPage {
    var isLoading: bool
    var error: Option<string>
    var tokenId: Option<string>
    var navigatedTo: Option<string>
    var hashCleared: bool

    constructor (tokenId: Option<string>)
      ensures isLoading && error == None && this.tokenId == tokenId
      ensures navigatedTo == None && !hashCleared
    {
      isLoading, error, this.tokenId := true, None, tokenId;
      navigatedTo, hashCleared := None, false;
    }

    /** The render: loading first, then an error, then the fallback text. */
    function Render(): (v: View)
      reads this
      ensures v == Processing <==> isLoading
      ensures v.LoginError? <==> !isLoading && error.Some?
    {
      if isLoading then Processing
      else if error.Some? then LoginError(error.value)
      else Complete
    }

    /** The effect. A fragment error, a query error, a code, or nothing at
        all: loading stops and nothing is stored. Both fragment tokens:
        storage receives them (StoredAfterGrant), the context token becomes
        the id token, the fragment is cleared and the router goes to "/",
        while loading stays as it was. `error` is never set on any path. */
    method ProcessCallback(storage: LocalStorage, hash: Params, query: Params,
                           nowMs: int, parseInt: string -> int)
      modifies this, storage
      ensures error == old(error)
      ensures match Decide(hash, query)
        case ImplicitGrant(idToken, accessToken, expiresIn, tokenType) =>
          && storage.items == StoredAfterGrant(old(storage.items), idToken, accessToken, expiresIn, tokenType, nowMs, parseInt)
          && tokenId == Some(idToken) && navigatedTo == Some("/") && hashCleared
          && isLoading == old(isLoading)
        case _ =>
          && !isLoading && storage.items == old(storage.items)
          && tokenId == old(tokenId) && navigatedTo == old(navigatedTo) && hashCleared == old(hashCleared)
    {
      var idToken := FirstValue(hash, "id_token");
      var accessToken := FirstValue(hash, "access_token");
      var expiresIn := FirstValue(hash, "expires_in");
      var tokenType := FirstValue(hash, "token_type");

      if RawTruthy(hash, "error") {
        isLoading := false;
        return;
      }

      if Truthy(idToken) && Truthy(accessToken) {
        storage.SetItem("id_token", idToken.value);
        storage.SetItem("access_token", accessToken.value);
        tokenId := idToken;
        if Truthy(expiresIn) {
          var expiryTime := nowMs + parseInt(expiresIn.value) * 1000;
          storage.SetItem("token_expiry", IntToString(expiryTime));
        }
        storage.SetItem("token_type", if Truthy(tokenType) then tokenType.value else "Bearer");
        hashCleared := true;
        navigatedTo := Some("/");
        return;
      }

      if RawTruthy(query, "error") {
        isLoading := false;
        return;
      }

      if RawTruthy(query, "code") {
        isLoading := false;
        return;
      }

      isLoading := false;
    }
  }

  /** The page as mounted: whatever the callback carried, the error view
      never shows, and the page keeps "Processing login..." exactly on the
      implicit-grant path. */
  method MountCallbackPage(storage: LocalStorage, hash: Params, query: Params,
                           nowMs: int, parseInt: string -> int, tokenId: Option<string>)
    returns (page: CallbackPage)
    modifies storage
    ensures !page.Render().LoginError?
    ensures page.Render() == Processing <==> Decide(hash, query).ImplicitGrant?
  {
    page := new CallbackPage(tokenId);
    page.ProcessCallback(storage, hash, query, nowMs, parseInt);
  }
}
