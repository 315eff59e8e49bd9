/** The HTTP client: token storage, request headers, the single
    refresh-and-retry rule of `apiFetch`, and the request builders the core
    uses. The network is a script of replies, one per `fetch` call. */
module Api {
  import opened Wrappers
  import Text
  import Uri

  const AccessTokenKey := "token"
  const RefreshTokenKey := "refresh_token"
  const AuthorizationHeader := "Authorization"
  const ContentTypeHeader := "Content-Type"
  const JsonContentType := "application/json"
  const LoginPath := "/auth/login"
  const RefreshPath := "/auth/refresh"
  const LogoutPath := "/auth/logout"
  const DefaultErrorMessage := "Request failed"

  function Lookup(m: map<string, string>, k: string): Option<string>
  {
    if k in m then Some(m[k]) else None
  }

  /** A stored string that JavaScript treats as true: present and not empty. */
  predicate Truthy(t: Option<string>)
  {
    t.Some? && t.value != ""
  }

  /** Storage after `setAuthTokens({accessToken, refreshToken})`. */
  function WithTokens(m: map<string, string>, access: string, refresh: Option<string>): (r: map<string, string>)
    ensures Lookup(r, AccessTokenKey) == Some(access)
    ensures Truthy(refresh) ==> Lookup(r, RefreshTokenKey) == refresh
    ensures !Truthy(refresh) ==> Lookup(r, RefreshTokenKey) == Lookup(m, RefreshTokenKey)
    ensures forall k :: k != AccessTokenKey && k != RefreshTokenKey ==> Lookup(r, k) == Lookup(m, k)
  {
    var withAccess := m[AccessTokenKey := access];
    if Truthy(refresh) then withAccess[RefreshTokenKey := refresh.value] else withAccess
  }

  /** Storage after `clearAuthTokens()`. */
  function Cleared(m: map<string, string>): (r: map<string, string>)
    ensures Lookup(r, AccessTokenKey).None? && Lookup(r, RefreshTokenKey).None?
    ensures forall k :: k != AccessTokenKey && k != RefreshTokenKey ==> Lookup(r, k) == Lookup(m, k)
  {
    m - {AccessTokenKey, RefreshTokenKey}
  }

  /** `clearAuthTokens` undoes whatever `setAuthTokens` wrote. */
  lemma ClearedForgetsTokens(m: map<string, string>, access: string, refresh: Option<string>)
    ensures Cleared(WithTokens(m, access, refresh)) == Cleared(m)
  {
  }

  /** The browser's `localStorage`, as far as the tokens go. */
  class TokenStore {
    var items: map<string, string>

    constructor (items: map<string, string>)
      ensures this.items == items
    {
      this.items := items;
    }

    /** `getAccessToken()`: the stored `token`, or nothing. */
    function GetAccessToken(): (t: Option<string>)
      reads this
      ensures t.Some? <==> AccessTokenKey in items
      ensures t.Some? ==> t.value == items[AccessTokenKey]
    {
      Lookup(items, AccessTokenKey)
    }

    /** `getRefreshToken()`: the stored `refresh_token`, or nothing. */
    function GetRefreshToken(): (t: Option<string>)
      reads this
      ensures t.Some? <==> RefreshTokenKey in items
      ensures t.Some? ==> t.value == items[RefreshTokenKey]
    {
      Lookup(items, RefreshTokenKey)
    }

    /** Always writes the access token; overwrites the refresh token only when
        a non-empty one is supplied. */
    method SetAuthTokens(access: string, refresh: Option<string>)
      modifies this
      ensures items == WithTokens(old(items), access, refresh)
      ensures GetAccessToken() == Some(access)
      ensures GetRefreshToken() == if Truthy(refresh) then refresh else old(GetRefreshToken())
    {
      items := items[AccessTokenKey := access];
      if Truthy(refresh) {
        items := items[RefreshTokenKey := refresh.value];
      }
    }

    /** Removes both tokens and nothing else. */
    method ClearAuthTokens()
      modifies this
      ensures items == Cleared(old(items))
      ensures GetAccessToken().None? && GetRefreshToken().None?
    {
      items := items - {AccessTokenKey};
      items := items - {RefreshTokenKey};
    }
  }

  /** The headers `apiFetch` starts from: the caller's, with `Content-Type`
      defaulting to JSON unless the body is form data. */
  method PrepareHeaders(caller: map<string, string>, bodyIsFormData: bool) returns (headers: map<string, string>)
    ensures bodyIsFormData ==> headers == caller
    ensures !bodyIsFormData && Truthy(Lookup(caller, ContentTypeHeader)) ==> headers == caller
    ensures !bodyIsFormData && !Truthy(Lookup(caller, ContentTypeHeader)) ==>
              Lookup(headers, ContentTypeHeader) == Some(JsonContentType)
    ensures forall k :: k != ContentTypeHeader ==> Lookup(headers, k) == Lookup(caller, k)
  {
    headers := caller;
    if !bodyIsFormData {
      var current := if ContentTypeHeader in headers then headers[ContentTypeHeader] else "";
      headers := headers[ContentTypeHeader := Text.Or(current, JsonContentType)];
    }
  }

  /** `attachAuthHeader`: a bearer header for a stored access token, no
      `Authorization` header at all otherwise; other headers untouched. */
  method AttachAuthHeader(headers: map<string, string>, token: Option<string>) returns (r: map<string, string>)
    ensures Truthy(token) ==> Lookup(r, AuthorizationHeader) == Some("Bearer " + token.value)
    ensures !Truthy(token) ==> AuthorizationHeader !in r
    ensures forall k :: k != AuthorizationHeader ==> Lookup(r, k) == Lookup(headers, k)
  {
    r := headers;
    if Truthy(token) {
      r := r[AuthorizationHeader := "Bearer " + token.value];
    } else {
      r := r - {AuthorizationHeader};
    }
  }

  /** The parsed body of a response: a JSON object (its string fields) or
      something `res.json()` rejects. */
  datatype Body = Json(fields: map<string, string>) | Malformed

  /** What one `fetch` call yields: a response, or a rejected promise. */
  datatype Reply = Reply(status: int, body: Body) | NetworkFailure

  datatype Request =
    | Call(path: string, headers: map<string, string>)
    | RefreshCall(refreshToken: string)

  /** What `apiFetch` resolves to, or the reason it rejects. */
  datatype FetchResult =
    | Data(fields: map<string, string>)
    | NoContent
    | HttpError(message: string)
    | TransportError
    | JsonError

  predicate Ok(status: int)
  {
    200 <= status <= 299
  }

  /** The reply served to the `k`-th `fetch` call; past the script's end the
      network is down. */
  function Serve(script: seq<Reply>, k: nat): Reply
  {
    if k < |script| then script[k] else NetworkFailure
  }

  /** The result `apiFetch` derives from the response it ends with. */
  function Settle(reply: Reply): (r: FetchResult)
    ensures r.TransportError? <==> reply.NetworkFailure?
    ensures r.HttpError? <==> reply.Reply? && !Ok(reply.status)
    ensures r.HttpError? ==> r.message != ""
    ensures r.HttpError? && reply.body.Json? && Truthy(Lookup(reply.body.fields, "message")) ==>
              r.message == reply.body.fields["message"]
    ensures r.HttpError? && !(reply.body.Json? && Truthy(Lookup(reply.body.fields, "message"))) ==>
              r.message == DefaultErrorMessage
    ensures r.NoContent? <==> reply.Reply? && reply.status == 204
    ensures reply.Reply? && Ok(reply.status) && reply.status != 204 && reply.body.Json? ==> r == Data(reply.body.fields)
    ensures r.JsonError? <==> reply.Reply? && Ok(reply.status) && reply.status != 204 && reply.body.Malformed?
    ensures r.Data? ==> reply.Reply? && Ok(reply.status) && reply.body == Json(r.fields)
  {
    match reply
    case NetworkFailure => TransportError
    case Reply(status, body) =>
      if !Ok(status) then
        var message := if body.Json? && "message" in body.fields then body.fields["message"] else "";
        HttpError(Text.Or(message, DefaultErrorMessage))
      else if status == 204 then NoContent
      else if body.Malformed? then JsonError
      else Data(body.fields)
  }

  /** A 401 on an ordinary endpoint with a stored refresh token sends one
      refresh request. */
  predicate RefreshApplies(path: string, first: Reply, storedRefresh: Option<string>)
  {
    first.Reply? && first.status == 401 && path != LoginPath && path != RefreshPath && Truthy(storedRefresh)
  }

  /** The refresh response grants a new access token: the request is retried. */
  predicate Grants(r: Reply)
  {
    r.Reply? && Ok(r.status) && r.body.Json? && Truthy(Lookup(r.body.fields, "access_token"))
  }

  /** The refresh response is ok but carries no access token: tokens are kept
      and the request is not retried. */
  predicate Declines(r: Reply)
  {
    r.Reply? && Ok(r.status) && r.body.Json? && !Truthy(Lookup(r.body.fields, "access_token"))
  }

  /** The headers of the first request: the caller's, with Content-Type
      defaulting to JSON unless the body is form data or the caller set one,
      and a bearer Authorization header exactly when an access token is stored. */
  ghost predicate InitialHeaders(caller: map<string, string>, bodyIsFormData: bool, token: Option<string>,
                           headers: map<string, string>)
  {
    && (Truthy(token) ==> Lookup(headers, AuthorizationHeader) == Some("Bearer " + token.value))
    && (!Truthy(token) ==> AuthorizationHeader !in headers)
    && (bodyIsFormData || Truthy(Lookup(caller, ContentTypeHeader)) ==>
          Lookup(headers, ContentTypeHeader) == Lookup(caller, ContentTypeHeader))
    && (!bodyIsFormData && !Truthy(Lookup(caller, ContentTypeHeader)) ==>
          Lookup(headers, ContentTypeHeader) == Some(JsonContentType))
    && (forall k :: k != AuthorizationHeader && k != ContentTypeHeader ==> Lookup(headers, k) == Lookup(caller, k))
  }

  /** Two header maps that differ at most in `Authorization`: the retry
      reuses the first request's headers object and only re-attaches the token. */
  ghost predicate SameExceptAuthorization(a: map<string, string>, b: map<string, string>)
  {
    forall k :: k != AuthorizationHeader ==> Lookup(a, k) == Lookup(b, k)
  }

  /** The first two steps of `apiFetch`: default the content type, then attach the token. */
  method FirstHeaders(caller: map<string, string>, bodyIsFormData: bool, token: Option<string>)
    returns (headers: map<string, string>)
    ensures InitialHeaders(caller, bodyIsFormData, token, headers)
  {
    headers := PrepareHeaders(caller, bodyIsFormData);
    headers := AttachAuthHeader(headers, token);
  }

  /** The retry's headers: the first request's, with the new token attached. */
  method RetryHeaders(headers: map<string, string>, access: string) returns (r: map<string, string>)
    requires access != ""
    ensures Lookup(r, AuthorizationHeader) == Some("Bearer " + access)
    ensures SameExceptAuthorization(r, headers)
  {
    r := AttachAuthHeader(headers, Some(access));
  }

  /** `apiFetch(path, options)`. At most one refresh and at most one retry: the
      request is sent once, or twice around one refresh call. */
  method ApiFetch(store: TokenStore, path: string, caller: map<string, string>, bodyIsFormData: bool, script: seq<Reply>)
    returns (result: FetchResult, sent: seq<Request>)
    modifies store
    ensures 1 <= |sent| <= 3
    ensures sent[0].Call? && sent[0].path == path
    ensures InitialHeaders(caller, bodyIsFormData, old(store.GetAccessToken()), sent[0].headers)
    // no refresh: nothing else is sent and storage is untouched
    ensures !RefreshApplies(path, Serve(script, 0), old(store.GetRefreshToken())) ==>
              |sent| == 1 && store.items == old(store.items) && result == Settle(Serve(script, 0))
    // the refresh request carries the stored refresh token
    ensures RefreshApplies(path, Serve(script, 0), old(store.GetRefreshToken())) ==>
              |sent| >= 2 && sent[1] == RefreshCall(old(store.GetRefreshToken()).value)
    // a failed or unusable refresh: no retry, the first response decides
    ensures RefreshApplies(path, Serve(script, 0), old(store.GetRefreshToken())) && !Grants(Serve(script, 1)) ==>
              |sent| == 2 && result == Settle(Serve(script, 0))
              && store.items == if Declines(Serve(script, 1)) then old(store.items) else Cleared(old(store.items))
    // a granted refresh: the request is retried with the new token
    ensures RefreshApplies(path, Serve(script, 0), old(store.GetRefreshToken())) && Grants(Serve(script, 1)) ==>
              var fields := Serve(script, 1).body.fields;
              && |sent| == 3
              && sent[2].Call? && sent[2].path == path
              && Lookup(sent[2].headers, AuthorizationHeader) == Some("Bearer " + fields["access_token"])
              && SameExceptAuthorization(sent[2].headers, sent[0].headers)
              && (Serve(script, 2).NetworkFailure? ==>
                    result == Settle(Serve(script, 0)) && store.items == Cleared(old(store.items)))
              && (!Serve(script, 2).NetworkFailure? ==>
                    result == Settle(Serve(script, 2))
                    && store.items == WithTokens(old(store.items), fields["access_token"], Lookup(fields, "refresh_token")))
  {
    var headers := FirstHeaders(caller, bodyIsFormData, store.GetAccessToken());
    sent := [Call(path, headers)];
    var res := Serve(script, 0);

    if res.Reply? && res.status == 401 && path != LoginPath && path != RefreshPath {
      var refreshToken := store.GetRefreshToken();
      if Truthy(refreshToken) {
        sent := sent + [RefreshCall(refreshToken.value)];
        var refreshRes := Serve(script, 1);
        if refreshRes.NetworkFailure? {
          store.ClearAuthTokens();
        } else if Ok(refreshRes.status) {
          match refreshRes.body
          case Malformed =>
            store.ClearAuthTokens();
          case Json(data) =>
            var access := Lookup(data, "access_token");
            if Truthy(access) {
              store.SetAuthTokens(access.value, Lookup(data, "refresh_token"));
              var retryHeaders := RetryHeaders(headers, access.value);
              sent := sent + [Call(path, retryHeaders)];
              var retry := Serve(script, 2);
              if retry.NetworkFailure? {
                store.ClearAuthTokens();
              } else {
                res := retry;
              }
            }
        } else {
          store.ClearAuthTokens();
        }
      }
    }
    result := Settle(res);
  }

  /** `logoutApi(refreshToken)`'s body: the explicit argument, or the stored
      refresh token when the argument is null or undefined; no body at all
      when that token is empty. */
  method LogoutBody(store: TokenStore, refreshToken: Option<string>) returns (body: Option<map<string, string>>)
    ensures var t := if refreshToken.Some? then refreshToken else store.GetRefreshToken();
            && (body.Some? <==> Truthy(t))
            && (body.Some? ==> body.value == map[RefreshTokenKey := t.value])
  {
    var fields: map<string, string> := map[];
    var token := if refreshToken.Some? then refreshToken else store.GetRefreshToken();
    if Truthy(token) {
      fields := fields[RefreshTokenKey := token.value];
    }
    assert |fields| > 0 <==> Truthy(token) by {
      if Truthy(token) {
        assert RefreshTokenKey in fields;
      } else {
        assert fields == map[];
      }
    }
    body := if |fields| > 0 then Some(fields) else None;
  }

  /** The `?clientId=…` query of `getLocationsApi` and `getGamingCentersApi`:
      present only for a non-empty id, which is percent-encoded. */
  function ClientQuery(clientId: Option<string>): (q: string)
    ensures q == "" <==> !Truthy(clientId)
    ensures q != "" ==> |q| > 10 && q[..10] == "?clientId=" && Uri.WellEscaped(q[10..])
  {
    if Truthy(clientId) then "?clientId=" + Uri.EncodeUriComponent(clientId.value) else ""
  }

  /** An id made of unreserved characters is appended as it is. */
  lemma PlainClientIdIsKept(clientId: string)
    requires clientId != "" && forall i :: 0 <= i < |clientId| ==> Uri.Unreserved(clientId[i])
    ensures ClientQuery(Some(clientId)) == "?clientId=" + clientId
  {
    Uri.EncodeUnreservedIsIdentity(clientId);
  }

  /** Path requested by `getLocationsApi(clientId)`. */
  function LocationsPath(clientId: Option<string>): (p: string)
    ensures !Truthy(clientId) ==> p == "/locations"
    ensures Truthy(clientId) ==> |p| > 10 && p[..10] == "/locations" && p[10..] == ClientQuery(clientId)
  {
    "/locations" + ClientQuery(clientId)
  }

  /** Path requested by `getGamingCentersApi(clientId)`. */
  function GamingCentersPath(clientId: Option<string>): (p: string)
    ensures !Truthy(clientId) ==> p == "/gaming"
    ensures Truthy(clientId) ==> |p| > 7 && p[..7] == "/gaming" && p[7..] == ClientQuery(clientId)
  {
    "/gaming" + ClientQuery(clientId)
  }
}
