/** The mobile client's adapter onto the Snowify backend: configuration and
    tokens kept in the key/value `localStorage`, request headers, the
    refresh-once-on-401 protocol, the stream URL, and the native cast plugin's
    load request and status listeners. Each `fetch` is replaced by its outcome
    and the requests issued are recorded in order; the plugin calls are
    replaced by the records they are given. */
module MobileApi {
  import opened JsValues
  import DesktopApi
  import CastService

  const API_URL_KEY: string := "snowify_api_url"
  const API_KEY_KEY: string := "snowify_api_key"
  const ACCESS_TOKEN_KEY: string := "snowify_access_token"
  const REFRESH_TOKEN_KEY: string := "snowify_refresh_token"

  /** An argument the adapter tests with `!== undefined`, so `null` is not the same as absent. */
  datatype Arg = Undefined | Null | Given(s: string)

  /** `arg || ''` for an argument that is not `undefined`. */
  function ArgOrEmpty(a: Arg): (s: string)
    ensures a.Given? ==> s == a.s
    ensures a.Null? ==> s == ""
  {
    if a.Given? then a.s else ""
  }

  /** `localStorage.getItem(k) || ''`. */
  function Item(store: map<string, string>, k: string): (v: string)
    ensures k in store ==> v == store[k]
    ensures k !in store ==> v == ""
  {
    if k in store then store[k] else ""
  }

  /** `apiHeaders(extra)`: JSON content type, overridden by `extra`, plus the stored API key
      when it is non-empty. */
  function Headers(store: map<string, string>, extra: map<string, string>): (h: map<string, string>)
    ensures h == DesktopApi.ApiHeaders(Item(store, API_KEY_KEY), extra)
    ensures extra == map[] ==> ("X-API-Key" in h <==> Item(store, API_KEY_KEY) != "")
  {
    DesktopApi.ApiHeaders(Item(store, API_KEY_KEY), extra)
  }

  /** The headers of the first attempt of `apiFetch`: `Authorization` iff an access token is stored. */
  function RequestHeaders(store: map<string, string>, extra: map<string, string>): (h: map<string, string>)
    ensures Item(store, ACCESS_TOKEN_KEY) != "" ==>
      "Authorization" in h && h["Authorization"] == "Bearer " + store[ACCESS_TOKEN_KEY]
    ensures Item(store, ACCESS_TOKEN_KEY) == "" ==> ("Authorization" in h <==> "Authorization" in extra)
    ensures forall k :: k in h && k != "Authorization" ==> k in Headers(store, extra) && h[k] == Headers(store, extra)[k]
  {
    var h := Headers(store, extra);
    var token := Item(store, ACCESS_TOKEN_KEY);
    if token != "" then h["Authorization" := "Bearer " + token] else h
  }

  /** The store after `clearTokens`: exactly the two token keys are removed. */
  function Cleared(store: map<string, string>): (s: map<string, string>)
    ensures ACCESS_TOKEN_KEY !in s && REFRESH_TOKEN_KEY !in s
    ensures forall k :: k != ACCESS_TOKEN_KEY && k != REFRESH_TOKEN_KEY ==> (k in s <==> k in store)
    ensures forall k :: k in s ==> s[k] == store[k]
  {
    store - {ACCESS_TOKEN_KEY, REFRESH_TOKEN_KEY}
  }

  /** The store after `authSaveTokens`: tokens only when truthy, the key only when not `undefined`. */
  function Saved(store: map<string, string>, access: Option<string>, refresh: Option<string>, key: Arg)
    : (s: map<string, string>)
    ensures s.Keys == store.Keys + (if Truthy(access) then {ACCESS_TOKEN_KEY} else {}) +
      (if Truthy(refresh) then {REFRESH_TOKEN_KEY} else {}) + (if key != Undefined then {API_KEY_KEY} else {})
    ensures Truthy(access) ==> s[ACCESS_TOKEN_KEY] == access.value
    ensures Truthy(refresh) ==> s[REFRESH_TOKEN_KEY] == refresh.value
    ensures key != Undefined ==> s[API_KEY_KEY] == ArgOrEmpty(key)
  {
    var s1 := if Truthy(access) then store[ACCESS_TOKEN_KEY := access.value] else store;
    var s2 := if Truthy(refresh) then s1[REFRESH_TOKEN_KEY := refresh.value] else s1;
    if key != Undefined then s2[API_KEY_KEY := ArgOrEmpty(key)] else s2
  }

  /** The store after `authConfigure`: the URL always (an absent one as the text `undefined`),
      the key only when not `undefined`. */
  function Configured(store: map<string, string>, baseUrl: Option<string>, key: Arg): (s: map<string, string>)
    ensures s.Keys == store.Keys + {API_URL_KEY} + (if key != Undefined then {API_KEY_KEY} else {})
    ensures s[API_URL_KEY] == Show(baseUrl)
    ensures key != Undefined ==> s[API_KEY_KEY] == ArgOrEmpty(key)
    ensures forall k :: k in store && k != API_URL_KEY && k != API_KEY_KEY ==> s[k] == store[k]
  {
    var s1 := store[API_URL_KEY := Show(baseUrl)];
    if key != Undefined then s1[API_KEY_KEY := ArgOrEmpty(key)] else s1
  }

  /** What `authGetState` resolves with. */
  datatype AuthState = AuthState(isConfigured: bool, isAuthenticated: bool, accessToken: string, refreshToken: string)

  function StateOf(store: map<string, string>): (st: AuthState)
    ensures st.isConfigured <==> Item(store, API_URL_KEY) != ""
    ensures st.isAuthenticated <==> st.accessToken != ""
    ensures st.accessToken == Item(store, ACCESS_TOKEN_KEY) && st.refreshToken == Item(store, REFRESH_TOKEN_KEY)
  {
    var access := Item(store, ACCESS_TOKEN_KEY);
    AuthState(Item(store, API_URL_KEY) != "", access != "", access, Item(store, REFRESH_TOKEN_KEY))
  }

  /** Saving touches only the three keys it names, and only as its guards allow. */
  lemma SavedTouchesOnlyItsKeys(store: map<string, string>, access: Option<string>, refresh: Option<string>,
                                key: Arg, k: string)
    requires k in store || k in Saved(store, access, refresh, key)
    ensures !Truthy(access) ==> Item(Saved(store, access, refresh, key), ACCESS_TOKEN_KEY) == Item(store, ACCESS_TOKEN_KEY)
    ensures !Truthy(refresh) ==> Item(Saved(store, access, refresh, key), REFRESH_TOKEN_KEY) == Item(store, REFRESH_TOKEN_KEY)
    ensures key == Undefined ==> Item(Saved(store, access, refresh, key), API_KEY_KEY) == Item(store, API_KEY_KEY)
    ensures k != ACCESS_TOKEN_KEY && k != REFRESH_TOKEN_KEY && k != API_KEY_KEY ==>
      k in store && k in Saved(store, access, refresh, key) && Saved(store, access, refresh, key)[k] == store[k]
  {
  }

  /** Saved tokens and key read back through `authLoadTokens`/`authGetState`. */
  lemma SaveThenLoad(store: map<string, string>, a: string, r: string, key: Arg)
    requires a != "" && r != "" && key != Undefined
    ensures var s := Saved(store, Some(a), Some(r), key);
      StateOf(s).accessToken == a && StateOf(s).refreshToken == r && StateOf(s).isAuthenticated &&
      Item(s, API_KEY_KEY) == ArgOrEmpty(key) &&
      StateOf(s).isConfigured == StateOf(store).isConfigured
  {
  }

  /** After clearing, the client is not authenticated, and configuration is unaffected. */
  lemma ClearedIsSignedOut(store: map<string, string>)
    ensures !StateOf(Cleared(store)).isAuthenticated
    ensures StateOf(Cleared(store)).refreshToken == ""
    ensures StateOf(Cleared(store)).isConfigured == StateOf(store).isConfigured
    ensures Item(Cleared(store), API_KEY_KEY) == Item(store, API_KEY_KEY)
  {
  }

  /** Configuring with an explicit `null` key empties it; leaving it `undefined` keeps the old one. */
  lemma ConfigureKeyArgument(store: map<string, string>, url: string)
    ensures Item(Configured(store, Some(url), Null), API_KEY_KEY) == ""
    ensures Item(Configured(store, Some(url), Undefined), API_KEY_KEY) == Item(store, API_KEY_KEY)
    ensures StateOf(Configured(store, Some(url), Undefined)).isConfigured <==> url != ""
  {
  }

  // ─── The stream URL ───

  /** What `new URL(videoUrl)` yields: a parse failure (it throws), or the `v` search parameter. */
  datatype UrlParse = Invalid | Parsed(v: Option<string>)

  /** A URL whose query is the given `URLSearchParams`, in insertion order (encoding not modelled). */
  datatype StreamUrl = StreamUrl(base: string, videoId: string, params: seq<(string, string)>)

  /** `getStreamUrl`: the `v` parameter or the whole input as the id; `quality=m4a` always,
      `key` iff a key is stored. */
  function StreamUrlOf(store: map<string, string>, videoUrl: string, parsed: UrlParse): (r: Result<StreamUrl, string>)
    ensures parsed.Invalid? <==> r.Err?
    ensures r.Ok? ==>
      r.value.base == Item(store, API_URL_KEY) &&
      r.value.videoId == OrStr(parsed.v, videoUrl) &&
      |r.value.params| >= 1 && r.value.params[0] == ("quality", "m4a") &&
      (|r.value.params| == 2 <==> Item(store, API_KEY_KEY) != "") &&
      (|r.value.params| == 2 ==> r.value.params[1] == ("key", store[API_KEY_KEY]))
  {
    match parsed
    case Invalid => Err("TypeError")
    case Parsed(v) =>
      var key := Item(store, API_KEY_KEY);
      Ok(StreamUrl(Item(store, API_URL_KEY), OrStr(v, videoUrl),
                   [("quality", "m4a")] + (if key != "" then [("key", key)] else [])))
  }

  // ─── Native cast plugin ───

  datatype Meta = Meta(currentTime: Option<real>, title: Option<string>, artist: Option<string>, thumbnail: Option<string>)

  /** The options passed to the plugin's `loadMedia`. */
  datatype LoadRequest = LoadRequest(
    contentId: string, contentType: string, streamType: string, autoPlay: bool,
    currentTime: real, title: string, artist: string, images: seq<string>)

  /** `castLoadMedia`'s request: fixed type and stream type, autoplay, and defaults for a
      missing `meta` or missing fields. */
  function LoadRequestOf(url: string, meta: Option<Meta>): (r: LoadRequest)
    ensures r.contentId == url && r.contentType == "audio/mp4" && r.streamType == "buffered" && r.autoPlay
    ensures meta.None? ==> r.currentTime == 0.0 && r.title == "" && r.artist == "" && r.images == []
    ensures meta.Some? ==>
      r.currentTime == OrZero(meta.value.currentTime) &&
      r.title == OrStr(meta.value.title, "") && r.artist == OrStr(meta.value.artist, "") &&
      (r.images == [] <==> !Truthy(meta.value.thumbnail)) &&
      (Truthy(meta.value.thumbnail) ==> r.images == [meta.value.thumbnail.value])
  {
    match meta
    case None => LoadRequest(url, "audio/mp4", "buffered", true, 0.0, "", "", [])
    case Some(m) =>
      LoadRequest(url, "audio/mp4", "buffered", true, OrZero(m.currentTime), OrStr(m.title, ""),
                  OrStr(m.artist, ""), if Truthy(m.thumbnail) then [m.thumbnail.value] else [])
  }

  /** The status handed to the callback: unlike the desktop record, the player state is passed
      through as reported. */
  datatype Status = Status(playerState: Option<string>, currentTime: real, duration: real, volume: real)

  /** A MEDIA_UPDATE event's status. */
  function MediaUpdateStatus(data: CastService.RawStatus): (st: Status)
    ensures st.playerState == data.playerState
  {
    Status(data.playerState, OrZero(data.currentTime), OrZero(data.mediaDuration), Coalesce(data.volumeLevel, 1.0))
  }

  /** The status a SESSION_ENDED event reports. */
  const SessionEndedStatus: Status := Status(Some("IDLE"), 0.0, 0.0, 1.0)

  /** The mobile and desktop normalisations agree on times and volume (a volume of 0 is kept by
      both); they differ only in that the desktop one defaults the player state to IDLE. */
  lemma MediaUpdateMatchesDesktop(data: CastService.RawStatus)
    ensures MediaUpdateStatus(data).currentTime == CastService.Normalize(data).currentTime
    ensures MediaUpdateStatus(data).duration == CastService.Normalize(data).duration
    ensures MediaUpdateStatus(data).volume == CastService.Normalize(data).volume
    ensures Truthy(data.playerState) ==> Some(CastService.Normalize(data).playerState) == MediaUpdateStatus(data).playerState
  {
  }

  /** The adapter's module state: the `localStorage` store and the cast status listeners. */
  class Adapter {
    var store: map<string, string>
    var castStatusCb: Option<nat>       // the registered callback, by identity
    var mediaUpdateHandle: bool
    var sessionEndHandle: bool
    var delivered: seq<(nat, Status)>   // calls of the callback, in order

    constructor (initial: map<string, string>)
      ensures store == initial && castStatusCb.None? && !mediaUpdateHandle && !sessionEndHandle && delivered == []
    {
      store := initial;
      castStatusCb := None;
      mediaUpdateHandle := false;
      sessionEndHandle := false;
      delivered := [];
    }

    method SetTokens(access: Option<string>, refresh: Option<string>)
      modifies this`store
      ensures store == old(store)[ACCESS_TOKEN_KEY := Show(access)][REFRESH_TOKEN_KEY := Show(refresh)]
    {
      store := store[ACCESS_TOKEN_KEY := Show(access)];
      store := store[REFRESH_TOKEN_KEY := Show(refresh)];
    }

    method ClearTokens()
      modifies this`store
      ensures store == Cleared(old(store))
    {
      store := store - {ACCESS_TOKEN_KEY};
      store := store - {REFRESH_TOKEN_KEY};
    }

    method AuthConfigure(baseUrl: Option<string>, key: Arg) returns (ok: bool)
      modifies this`store
      ensures ok && store == Configured(old(store), baseUrl, key)
    {
      store := store[API_URL_KEY := Show(baseUrl)];
      if key != Undefined {
        store := store[API_KEY_KEY := ArgOrEmpty(key)];
      }
      ok := true;
    }

    method AuthSaveTokens(access: Option<string>, refresh: Option<string>, key: Arg) returns (ok: bool)
      modifies this`store
      ensures ok && store == Saved(old(store), access, refresh, key)
    {
      if Truthy(access) {
        store := store[ACCESS_TOKEN_KEY := access.value];
      }
      if Truthy(refresh) {
        store := store[REFRESH_TOKEN_KEY := refresh.value];
      }
      if key != Undefined {
        store := store[API_KEY_KEY := ArgOrEmpty(key)];
      }
      ok := true;
    }

    method AuthGetState() returns (st: AuthState)
      ensures st == StateOf(store)
    {
      var access := Item(store, ACCESS_TOKEN_KEY);
      st := AuthState(Item(store, API_URL_KEY) != "", access != "", access, Item(store, REFRESH_TOKEN_KEY));
    }

    /** `authLogout`: tells the server when a refresh token is stored (ignoring any failure),
        then removes both tokens. */
    method AuthLogout() returns (ok: bool, sent: seq<DesktopApi.Sent>)
      modifies this`store
      ensures ok && store == Cleared(old(store))
      ensures sent == if Item(old(store), REFRESH_TOKEN_KEY) != ""
                      then [DesktopApi.Sent(Item(old(store), API_URL_KEY) + "/auth/logout", Headers(old(store), map[]))]
                      else []
    {
      sent := [];
      if Item(store, REFRESH_TOKEN_KEY) != "" {
        sent := [DesktopApi.Sent(Item(store, API_URL_KEY) + "/auth/logout", Headers(store, map[]))];
      }
      ClearTokens();
      ok := true;
    }

    /** `refreshAccessToken`: one POST to `/auth/refresh`; a refusal removes both tokens, a
        network failure leaves them, a success stores the new pair as text. */
    method RefreshAccessToken(outcome: DesktopApi.FetchOutcome)
      returns (r: Result<Option<string>, string>, sent: seq<DesktopApi.Sent>)
      modifies this`store
      ensures Item(old(store), REFRESH_TOKEN_KEY) == "" ==>
        r == Err("No refresh token") && sent == [] && store == old(store)
      ensures Item(old(store), REFRESH_TOKEN_KEY) != "" ==>
        sent == [DesktopApi.Sent(Item(old(store), API_URL_KEY) + "/auth/refresh", Headers(old(store), map[]))]
      ensures Item(old(store), REFRESH_TOKEN_KEY) != "" && outcome.NetworkFailure? ==>
        r == Err(outcome.err) && store == old(store)
      ensures Item(old(store), REFRESH_TOKEN_KEY) != "" && outcome.Responded? && !DesktopApi.IsOk(outcome.res) ==>
        r == Err("Session expired") && store == Cleared(old(store))
      ensures Item(old(store), REFRESH_TOKEN_KEY) != "" && outcome.Responded? && DesktopApi.IsOk(outcome.res) ==>
        r == Ok(outcome.res.body.accessToken) &&
        store == old(store)[ACCESS_TOKEN_KEY := Show(outcome.res.body.accessToken)]
                           [REFRESH_TOKEN_KEY := Show(outcome.res.body.refreshToken)]
    {
      if Item(store, REFRESH_TOKEN_KEY) == "" {
        return Err("No refresh token"), [];
      }
      sent := [DesktopApi.Sent(Item(store, API_URL_KEY) + "/auth/refresh", Headers(store, map[]))];
      match outcome {
        case NetworkFailure(e) =>
          r := Err(e);
        case Responded(res) =>
          if !DesktopApi.IsOk(res) {
            ClearTokens();
            r := Err("Session expired");
          } else {
            SetTokens(res.body.accessToken, res.body.refreshToken);
            r := Ok(res.body.accessToken);
          }
      }
    }

    /** `apiFetch`: one request; on a 401 while a refresh token is stored, one refresh and one
        retry, any failure of which is reported as an expired session. */
    method ApiFetch(path: string, extra: map<string, string>,
                    first: DesktopApi.FetchOutcome, refresh: DesktopApi.FetchOutcome, retry: DesktopApi.FetchOutcome)
      returns (r: Result<DesktopApi.Body, string>, sent: seq<DesktopApi.Sent>)
      modifies this`store
      ensures |sent| <= 3
      ensures Item(old(store), API_URL_KEY) == "" ==>
        r == Err("API URL not configured") && sent == [] && store == old(store)
      ensures Item(old(store), API_URL_KEY) != "" ==>
        |sent| >= 1 && sent[0] == DesktopApi.Sent(old(store)[API_URL_KEY] + path, RequestHeaders(old(store), extra))
      ensures Item(old(store), API_URL_KEY) != "" && first.NetworkFailure? ==>
        r == Err(first.err) && |sent| == 1 && store == old(store)
      ensures Item(old(store), API_URL_KEY) != "" && first.Responded? &&
              !(first.res.status == 401 && Item(old(store), REFRESH_TOKEN_KEY) != "") ==>
        |sent| == 1 && store == old(store) &&
        r == (if DesktopApi.IsOk(first.res) then Ok(first.res.body)
              else Err(OrStr(first.res.body.message, "API error " + IntToString(first.res.status))))
      ensures Item(old(store), API_URL_KEY) != "" && first.Responded? &&
              first.res.status == 401 && Item(old(store), REFRESH_TOKEN_KEY) != "" ==>
        |sent| >= 2 &&
        sent[1] == DesktopApi.Sent(old(store)[API_URL_KEY] + "/auth/refresh", Headers(old(store), map[])) &&
        ((refresh.NetworkFailure? || !DesktopApi.IsOk(refresh.res) || retry.NetworkFailure?) ==>
          r == Err("Authentication expired")) &&
        ((refresh.NetworkFailure? || !DesktopApi.IsOk(refresh.res)) ==> |sent| == 2) &&
        (refresh.NetworkFailure? ==> store == old(store)) &&
        (refresh.Responded? && !DesktopApi.IsOk(refresh.res) ==> store == Cleared(old(store))) &&
        (refresh.Responded? && DesktopApi.IsOk(refresh.res) ==>
          |sent| == 3 && sent[2].url == old(store)[API_URL_KEY] + path &&
          "Authorization" in sent[2].headers &&
          sent[2].headers["Authorization"] == DesktopApi.Bearer(refresh.res.body.accessToken) &&
          Item(store, ACCESS_TOKEN_KEY) == Show(refresh.res.body.accessToken) &&
          Item(store, REFRESH_TOKEN_KEY) == Show(refresh.res.body.refreshToken) &&
          store == old(store)[ACCESS_TOKEN_KEY := Show(refresh.res.body.accessToken)]
                             [REFRESH_TOKEN_KEY := Show(refresh.res.body.refreshToken)]) &&
        (refresh.Responded? && DesktopApi.IsOk(refresh.res) && retry.Responded? ==>
          r == (if DesktopApi.IsOk(retry.res) then Ok(retry.res.body)
                else Err(OrStr(retry.res.body.message, "API error " + IntToString(retry.res.status)))))
    {
      var api := Item(store, API_URL_KEY);
      if api == "" {
        return Err("API URL not configured"), [];
      }
      var headers := Headers(store, extra);
      var token := Item(store, ACCESS_TOKEN_KEY);
      if token != "" {
        headers := headers["Authorization" := "Bearer " + token];
      }
      sent := [DesktopApi.Sent(api + path, headers)];
      if first.NetworkFailure? {
        return Err(first.err), sent;
      }
      var res := first.res;
      if res.status == 401 && Item(store, REFRESH_TOKEN_KEY) != "" {
        var renewed, refreshSent := RefreshAccessToken(refresh);
        sent := sent + refreshSent;
        if renewed.Err? {
          return Err("Authentication expired"), sent;
        }
        headers := headers["Authorization" := DesktopApi.Bearer(renewed.value)];
        sent := sent + [DesktopApi.Sent(api + path, headers)];
        if retry.NetworkFailure? {
          return Err("Authentication expired"), sent;
        }
        res := retry.res;
      }
      if !DesktopApi.IsOk(res) {
        return Err(OrStr(res.body.message, "API error " + IntToString(res.status))), sent;
      }
      r := Ok(res.body);
    }

    /** `onCastStatus`: registers the callback and both plugin listeners. */
    method OnCastStatus(cb: nat)
      modifies this`castStatusCb, this`mediaUpdateHandle, this`sessionEndHandle
      ensures castStatusCb == Some(cb) && mediaUpdateHandle && sessionEndHandle
    {
      castStatusCb := Some(cb);
      mediaUpdateHandle := true;
      sessionEndHandle := true;
    }

    /** `offCastStatus`: drops the callback and removes both listeners. */
    method OffCastStatus()
      modifies this`castStatusCb, this`mediaUpdateHandle, this`sessionEndHandle
      ensures castStatusCb.None? && !mediaUpdateHandle && !sessionEndHandle
    {
      castStatusCb := None;
      if mediaUpdateHandle {
        mediaUpdateHandle := false;
      }
      if sessionEndHandle {
        sessionEndHandle := false;
      }
    }

    /** The plugin reports MEDIA_UPDATE: the callback, if any, receives the normalised status. */
    method MediaUpdate(data: CastService.RawStatus)
      modifies this`delivered
      ensures castStatusCb.Some? ==> delivered == old(delivered) + [(castStatusCb.value, MediaUpdateStatus(data))]
      ensures castStatusCb.None? ==> delivered == old(delivered)
    {
      if castStatusCb.Some? {
        delivered := delivered + [(castStatusCb.value, MediaUpdateStatus(data))];
      }
    }

    /** The plugin reports SESSION_ENDED: the callback, if any, receives an idle status. */
    method SessionEnded()
      modifies this`delivered
      ensures castStatusCb.Some? ==> delivered == old(delivered) + [(castStatusCb.value, SessionEndedStatus)]
      ensures castStatusCb.None? ==> delivered == old(delivered)
    {
      if castStatusCb.Some? {
        delivered := delivered + [(castStatusCb.value, SessionEndedStatus)];
      }
    }
  }

  /** A rejected refresh signs the client out, and saved tokens then sign it back in while
      leaving the configured URL alone. */
  method SessionExpiryScenario(body: DesktopApi.Body)
  {
    var a := new Adapter(map[]);
    var ok := a.AuthConfigure(Some("https://api.example"), Given("k"));
    ok := a.AuthSaveTokens(Some("t1"), Some("r1"), Undefined);
    assert Item(a.store, REFRESH_TOKEN_KEY) == "r1";
    var r, sent := a.RefreshAccessToken(DesktopApi.Responded(DesktopApi.Response(403, body)));
    assert r == Err("Session expired") && |sent| == 1;
    var st := a.AuthGetState();
    assert st.isConfigured && !st.isAuthenticated;
    ok := a.AuthSaveTokens(Some("t2"), Some("r2"), Undefined);
    st := a.AuthGetState();
    assert st.isAuthenticated && st.accessToken == "t2";
  }

  /** After `offCastStatus`, later plugin events reach nobody. */
  method ListenerScenario(data: CastService.RawStatus)
  {
    var a := new Adapter(map[]);
    a.OnCastStatus(7);
    a.SessionEnded();
    assert a.delivered == [(7, SessionEndedStatus)];
    a.OffCastStatus();
    a.MediaUpdate(data);
    a.SessionEnded();
    assert a.delivered == [(7, SessionEndedStatus)];
  }
}
