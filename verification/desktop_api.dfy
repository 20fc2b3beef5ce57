/** The desktop client of the Snowify backend: module-level configuration and
    token state, request headers, the refresh-once-on-401 protocol, and logout.
    Each `fetch` is replaced by its outcome; the requests issued are recorded in
    order. Login and registration are not part of this model. */
module DesktopApi {
  import opened JsValues

  const JSON_TYPE: string := "application/json"

  /** A response: its status and the fields of its JSON body the client reads. */
  datatype Body = Body(message: Option<string>, accessToken: Option<string>, refreshToken: Option<string>)
  datatype Response = Response(status: int, body: Body)

  /** What one `fetch` does: answer, or reject (network failure). */
  datatype FetchOutcome = Responded(res: Response) | NetworkFailure(err: string)

  /** A request the client issued. */
  datatype Sent = Sent(url: string, headers: map<string, string>)

  predicate IsOk(res: Response) {
    200 <= res.status <= 299
  }

  /** `baseUrl.replace(/\/$/, '')`: at most one trailing slash goes. */
  function StripTrailingSlash(s: string): (r: string)
    ensures |s| > 0 && s[|s| - 1] == '/' ==> r + "/" == s
    ensures !(|s| > 0 && s[|s| - 1] == '/') ==> r == s
  {
    if |s| > 0 && s[|s| - 1] == '/' then s[..|s| - 1] else s
  }

  /** `_apiHeaders(extra)`: JSON content type, overridden by `extra`, plus the API key when set. */
  function ApiHeaders(apiKey: string, extra: map<string, string>): (h: map<string, string>)
    ensures "Content-Type" in h
    ensures h["Content-Type"] == (if "Content-Type" in extra then extra["Content-Type"] else JSON_TYPE)
    ensures apiKey != "" ==> "X-API-Key" in h && h["X-API-Key"] == apiKey
    ensures apiKey == "" ==> ("X-API-Key" in h <==> "X-API-Key" in extra)
    ensures forall k :: k in extra && k != "X-API-Key" ==> k in h && h[k] == extra[k]
    ensures forall k :: k in h ==> k in extra || k == "Content-Type" || k == "X-API-Key"
  {
    var h := map["Content-Type" := JSON_TYPE] + extra;
    if apiKey != "" then h["X-API-Key" := apiKey] else h
  }

  /** The `Authorization` value for a token; a missing token renders as `undefined`. */
  function Bearer(token: Option<string>): string {
    "Bearer " + Show(token)
  }

  class Api {
    var baseUrl: string
    var accessToken: Option<string>
    var refreshToken: Option<string>
    var apiKey: string
    var hasCallback: bool
    var notified: seq<(Option<string>, Option<string>)>  // calls of `onTokensUpdated`

    constructor ()
      ensures baseUrl == "" && accessToken == Some("") && refreshToken == Some("") && apiKey == ""
      ensures !hasCallback && notified == []
    {
      baseUrl := "";
      accessToken := Some("");
      refreshToken := Some("");
      apiKey := "";
      hasCallback := false;
      notified := [];
    }

    /** `configure`: a missing base URL throws before anything is stored. */
    method Configure(base: Option<string>, access: Option<string>, refresh: Option<string>,
                     key: Option<string>, callback: bool) returns (r: Result<(), string>)
      modifies this
      ensures base.None? ==>
        r.Err? && baseUrl == old(baseUrl) && accessToken == old(accessToken) &&
        refreshToken == old(refreshToken) && apiKey == old(apiKey) && hasCallback == old(hasCallback)
      ensures base.Some? ==>
        r.Ok? && baseUrl == StripTrailingSlash(base.value) &&
        accessToken == Some(OrStr(access, "")) && refreshToken == Some(OrStr(refresh, "")) &&
        apiKey == OrStr(key, "") && hasCallback == callback
      ensures notified == old(notified)
    {
      if base.None? {
        return Err("TypeError");
      }
      baseUrl := StripTrailingSlash(base.value);
      accessToken := Some(OrStr(access, ""));
      refreshToken := Some(OrStr(refresh, ""));
      apiKey := OrStr(key, "");
      hasCallback := callback;
      r := Ok(());
    }

    method GetTokens() returns (access: Option<string>, refresh: Option<string>)
      ensures access == accessToken && refresh == refreshToken
    {
      return accessToken, refreshToken;
    }

    method SetTokens(access: Option<string>, refresh: Option<string>)
      modifies this`accessToken, this`refreshToken
      ensures accessToken == access && refreshToken == refresh
    {
      accessToken := access;
      refreshToken := refresh;
    }

    method ClearTokens()
      modifies this`accessToken, this`refreshToken
      ensures accessToken == Some("") && refreshToken == Some("")
      ensures !IsAuthenticated()
    {
      accessToken := Some("");
      refreshToken := Some("");
    }

    predicate IsConfigured()
      reads this
    {
      baseUrl != ""
    }

    predicate IsAuthenticated()
      reads this
    {
      Truthy(accessToken)
    }

    /** `refreshAccessToken`: one POST to `/auth/refresh`; a refusal clears both tokens, a
        network failure leaves them, a success stores the new pair and notifies. */
    method RefreshAccessToken(outcome: FetchOutcome) returns (r: Result<Option<string>, string>, sent: seq<Sent>)
      modifies this`accessToken, this`refreshToken, this`notified
      ensures !Truthy(old(refreshToken)) ==>
        r == Err("No refresh token") && sent == [] &&
        accessToken == old(accessToken) && refreshToken == old(refreshToken) && notified == old(notified)
      ensures Truthy(old(refreshToken)) ==> sent == [Sent(baseUrl + "/auth/refresh", ApiHeaders(apiKey, map[]))]
      ensures Truthy(old(refreshToken)) && outcome.NetworkFailure? ==>
        r == Err(outcome.err) && accessToken == old(accessToken) && refreshToken == old(refreshToken) &&
        notified == old(notified)
      ensures Truthy(old(refreshToken)) && outcome.Responded? && !IsOk(outcome.res) ==>
        r == Err("Refresh failed") && accessToken == Some("") && refreshToken == Some("") &&
        notified == old(notified)
      ensures Truthy(old(refreshToken)) && outcome.Responded? && IsOk(outcome.res) ==>
        accessToken == outcome.res.body.accessToken && refreshToken == outcome.res.body.refreshToken &&
        r == Ok(accessToken) &&
        notified == old(notified) + (if hasCallback then [(accessToken, refreshToken)] else [])
    {
      if !Truthy(refreshToken) {
        return Err("No refresh token"), [];
      }
      sent := [Sent(baseUrl + "/auth/refresh", ApiHeaders(apiKey, map[]))];
      match outcome {
        case NetworkFailure(e) =>
          r := Err(e);
        case Responded(res) =>
          if !IsOk(res) {
            ClearTokens();
            r := Err("Refresh failed");
          } else {
            accessToken := res.body.accessToken;
            refreshToken := res.body.refreshToken;
            if hasCallback {
              notified := notified + [(accessToken, refreshToken)];
            }
            r := Ok(accessToken);
          }
      }
    }

    /** The headers of an authenticated request. */
    function RequestHeaders(extra: map<string, string>): (h: map<string, string>)
      reads this
      ensures "Authorization" in h <==> IsAuthenticated() || "Authorization" in extra
      ensures IsAuthenticated() ==> h["Authorization"] == Bearer(accessToken)
    {
      var h := ApiHeaders(apiKey, extra);
      if Truthy(accessToken) then h["Authorization" := Bearer(accessToken)] else h
    }

    /** `apiFetch`: one request; on a 401 while a refresh token is held, one refresh and one
        retry, any failure of which is reported as an expired session. */
    method ApiFetch(path: string, extra: map<string, string>,
                    first: FetchOutcome, refresh: FetchOutcome, retry: FetchOutcome)
      returns (r: Result<Body, string>, sent: seq<Sent>)
      modifies this`accessToken, this`refreshToken, this`notified
      ensures |sent| <= 3
      ensures !old(IsConfigured()) ==>
        r == Err("API not configured") && sent == [] &&
        accessToken == old(accessToken) && refreshToken == old(refreshToken)
      ensures old(IsConfigured()) ==> |sent| >= 1 && sent[0] == Sent(baseUrl + path, old(RequestHeaders(extra)))
      ensures old(IsConfigured()) && first.NetworkFailure? ==>
        r == Err(first.err) && |sent| == 1 && accessToken == old(accessToken) && refreshToken == old(refreshToken)
      ensures !(old(IsConfigured()) && first.Responded? && first.res.status == 401 && Truthy(old(refreshToken)) &&
                refresh.Responded? && IsOk(refresh.res)) ==>
        notified == old(notified)
      ensures old(IsConfigured()) && first.Responded? && !(first.res.status == 401 && Truthy(old(refreshToken))) ==>
        |sent| == 1 && accessToken == old(accessToken) && refreshToken == old(refreshToken) &&
        r == (if IsOk(first.res) then Ok(first.res.body)
              else Err(OrStr(first.res.body.message, "API error " + IntToString(first.res.status))))
      ensures old(IsConfigured()) && first.Responded? && first.res.status == 401 && Truthy(old(refreshToken)) ==>
        |sent| >= 2 && sent[1] == Sent(baseUrl + "/auth/refresh", ApiHeaders(apiKey, map[])) &&
        ((refresh.NetworkFailure? || !IsOk(refresh.res) || retry.NetworkFailure?) ==> r == Err("Authentication expired")) &&
        (refresh.NetworkFailure? ==> accessToken == old(accessToken) && refreshToken == old(refreshToken)) &&
        (refresh.Responded? && !IsOk(refresh.res) ==> accessToken == Some("") && refreshToken == Some("")) &&
        (refresh.Responded? && IsOk(refresh.res) ==>
          |sent| == 3 && sent[2].url == baseUrl + path &&
          "Authorization" in sent[2].headers &&
          sent[2].headers["Authorization"] == Bearer(refresh.res.body.accessToken) &&
          notified == old(notified) + (if hasCallback then [(accessToken, refreshToken)] else []) &&
          accessToken == refresh.res.body.accessToken && refreshToken == refresh.res.body.refreshToken) &&
        (refresh.Responded? && IsOk(refresh.res) && retry.Responded? ==>
          r == (if IsOk(retry.res) then Ok(retry.res.body)
                else Err(OrStr(retry.res.body.message, "API error " + IntToString(retry.res.status)))))
    {
      if baseUrl == "" {
        return Err("API not configured"), [];
      }
      var headers := ApiHeaders(apiKey, extra);
      if Truthy(accessToken) {
        headers := headers["Authorization" := Bearer(accessToken)];
      }
      sent := [Sent(baseUrl + path, headers)];
      if first.NetworkFailure? {
        return Err(first.err), sent;
      }
      var res := first.res;
      if res.status == 401 && Truthy(refreshToken) {
        var refreshed, refreshSent := RefreshAccessToken(refresh);
        sent := sent + refreshSent;
        if refreshed.Err? {
          return Err("Authentication expired"), sent;
        }
        headers := headers["Authorization" := Bearer(accessToken)];
        sent := sent + [Sent(baseUrl + path, headers)];
        if retry.NetworkFailure? {
          return Err("Authentication expired"), sent;
        }
        res := retry.res;
      }
      if !IsOk(res) {
        return Err(OrStr(res.body.message, "API error " + IntToString(res.status))), sent;
      }
      r := Ok(res.body);
    }

    /** `logout`: tells the server when a refresh token is held (ignoring any failure), then
        clears both tokens. */
    method Logout() returns (sent: seq<Sent>)
      modifies this`accessToken, this`refreshToken
      ensures accessToken == Some("") && refreshToken == Some("")
      ensures sent == if Truthy(old(refreshToken)) then [Sent(baseUrl + "/auth/logout", ApiHeaders(apiKey, map[]))] else []
    {
      sent := [];
      if Truthy(refreshToken) {
        sent := [Sent(baseUrl + "/auth/logout", ApiHeaders(apiKey, map[]))];
      }
      ClearTokens();
    }
  }

  /** A request that gets a 401, refreshes, and succeeds on the retry uses the new token. */
  method RefreshOnceScenario(body: Body)
  {
    var api := new Api();
    var c := api.Configure(Some("https://api.example/"), Some("old"), Some("r1"), None, true);
    assert api.baseUrl == "https://api.example";
    var renewed := Body(None, Some("new"), Some("r2"));
    var r, sent := api.ApiFetch("/me", map[], Responded(Response(401, body)),
                                Responded(Response(200, renewed)), Responded(Response(200, body)));
    assert sent[0].headers["Authorization"] == "Bearer old";
    assert "Authorization" in sent[2].headers && sent[2].headers["Authorization"] == "Bearer new";
    assert api.notified == [(Some("new"), Some("r2"))];
  }
}
