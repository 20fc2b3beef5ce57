/** The local HTTP relay that lets a Cast receiver fetch the current audio
    stream: its server, URL and port state, the choice of the advertised local
    address, and the decisions of its `/stream` handler. Sockets and the upstream
    body are replaced by the events they deliver; `Range`, `Accept-Ranges`,
    `Content-Range` and status 206 are as in sections 14.2-14.4 and 15.3.7 of
    RFC 9110. */
module CastProxy {
  import opened JsValues

  const USER_AGENT: string :=
    "Mozilla/5.0 (Windows NT 10.0; Win64; x64) AppleWebKit/537.36 (KHTML, like Gecko) Chrome/120.0.0.0 Safari/537.36"
  const LOOPBACK: string := "127.0.0.1"

  /** One entry of the operating system's interface table. */
  datatype Iface = Iface(family: string, internal: bool, address: string)

  predicate External(i: Iface) {
    i.family == "IPv4" && !i.internal
  }

  // ─── Local address selection ───

  /** The address of the first external IPv4 entry of one interface. */
  function FirstExternalIn(group: seq<Iface>): (r: Option<string>)
    ensures r.None? <==> forall k :: 0 <= k < |group| ==> !External(group[k])
    ensures r.Some? ==>
      exists k :: 0 <= k < |group| && External(group[k]) && group[k].address == r.value &&
                  forall j :: 0 <= j < k ==> !External(group[j])
    decreases |group|
  {
    if group == [] then None
    else if External(group[0]) then Some(group[0].address)
    else
      var rest := FirstExternalIn(group[1..]);
      if rest.Some? then
        ghost var k :| 0 <= k < |group[1..]| && External(group[1..][k]) &&
          group[1..][k].address == rest.value && forall j :: 0 <= j < k ==> !External(group[1..][j]);
        assert group[k + 1] == group[1..][k];
        assert forall j :: 0 <= j < k + 1 ==> !External(group[j]) by {
          forall j | 0 <= j < k + 1 ensures !External(group[j]) {
            if j > 0 { assert group[j] == group[1..][j - 1]; }
          }
        }
        rest
      else rest
  }

  /** The address advertised to receivers, interfaces taken in table order. */
  function LocalIP(ifaces: seq<seq<Iface>>): (a: string)
    ensures a == LOOPBACK ||
      exists g, k :: 0 <= g < |ifaces| && 0 <= k < |ifaces[g]| &&
        External(ifaces[g][k]) && a == ifaces[g][k].address
    decreases |ifaces|
  {
    if ifaces == [] then LOOPBACK
    else
      match FirstExternalIn(ifaces[0])
      case Some(a) => a
      case None => LocalIP(ifaces[1..])
  }

  predicate NoExternalBefore(ifaces: seq<seq<Iface>>, g: nat) {
    forall h, j :: 0 <= h < g && h < |ifaces| && 0 <= j < |ifaces[h]| ==> !External(ifaces[h][j])
  }

  /** `getLocalIP` picks the first external IPv4 address in iteration order,
      and falls back to the loopback address when there is none. */
  lemma {:induction false} LocalIPIsFirstExternal(ifaces: seq<seq<Iface>>)
    ensures NoExternalBefore(ifaces, |ifaces|) ==> LocalIP(ifaces) == LOOPBACK
    ensures !NoExternalBefore(ifaces, |ifaces|) ==>
      exists g, k :: 0 <= g < |ifaces| && 0 <= k < |ifaces[g]| && External(ifaces[g][k]) &&
        LocalIP(ifaces) == ifaces[g][k].address && NoExternalBefore(ifaces, g) &&
        forall j :: 0 <= j < k ==> !External(ifaces[g][j])
    decreases |ifaces|
  {
    if ifaces != [] {
      var rest := ifaces[1..];
      LocalIPIsFirstExternal(rest);
      var first := FirstExternalIn(ifaces[0]);
      if first.None? {
        if NoExternalBefore(rest, |rest|) {
          forall h, j | 0 <= h < |ifaces| && 0 <= j < |ifaces[h]| ensures !External(ifaces[h][j]) {
            if h > 0 { assert ifaces[h] == rest[h - 1]; }
          }
        } else {
          var g, k :| 0 <= g < |rest| && 0 <= k < |rest[g]| && External(rest[g][k]) &&
            LocalIP(rest) == rest[g][k].address && NoExternalBefore(rest, g) &&
            forall j :: 0 <= j < k ==> !External(rest[g][j]);
          assert ifaces[g + 1] == rest[g];
          forall h, j | 0 <= h < g + 1 && 0 <= j < |ifaces[h]| ensures !External(ifaces[h][j]) {
            if h > 0 { assert ifaces[h] == rest[h - 1]; }
          }
          assert NoExternalBefore(ifaces, g + 1);
        }
      } else {
        var k :| 0 <= k < |ifaces[0]| && External(ifaces[0][k]) &&
          ifaces[0][k].address == first.value && forall j :: 0 <= j < k ==> !External(ifaces[0][j]);
        assert NoExternalBefore(ifaces, 0);
      }
    }
  }

  /** `getLocalIP`, the nested search with an early return. */
  method GetLocalIP(ifaces: seq<seq<Iface>>) returns (ip: string)
    ensures ip == LocalIP(ifaces)
  {
    var g := 0;
    while g < |ifaces|
      invariant 0 <= g <= |ifaces|
      invariant LocalIP(ifaces[g..]) == LocalIP(ifaces)
    {
      var group := ifaces[g];
      var k := 0;
      while k < |group|
        invariant 0 <= k <= |group|
        invariant FirstExternalIn(group[k..]) == FirstExternalIn(group)
      {
        if group[k].family == "IPv4" && !group[k].internal {
          assert group[k..][0] == group[k];
          return group[k].address;
        }
        assert group[k..][1..] == group[k + 1..];
        k := k + 1;
      }
      assert ifaces[g..][0] == group && ifaces[g..][1..] == ifaces[g + 1..];
      g := g + 1;
    }
    return LOOPBACK;
  }

  // ─── The `/stream` handler ───

  /** An inbound request from the receiver. */
  datatype Request = Request(url: string, range: Option<string>)

  /** The upstream response's status and the headers the relay looks at. */
  datatype UpstreamResponse = UpstreamResponse(
    status: nat,
    contentType: Option<string>,
    contentLength: Option<string>,
    contentRange: Option<string>)

  /** How the upstream request ends. */
  datatype UpstreamEvent =
    | Answered(res: UpstreamResponse)           // responds; the body is piped through
    | FailsBeforeResponse                      // errors before any response
    | FailsWhilePiping(res: UpstreamResponse)   // responds, then errors mid-body

  datatype Body = NoBody | Piped | Truncated

  /** What the receiver gets: a status, the headers written, and how the body ends. */
  datatype Reply = Reply(status: nat, headers: map<string, string>, body: Body)

  /** One exchange: the upstream request sent (target and headers), the reply,
      and whether the upstream request was destroyed. */
  datatype Exchange = Exchange(
    upstream: Option<(string, map<string, string>)>,
    reply: Reply,
    upstreamDestroyed: bool)

  /** The request headers sent upstream: the fixed User-Agent, and `Range` copied iff present,
      and nothing else. */
  predicate ForwardedHeaders(req: Request, h: map<string, string>) {
    "User-Agent" in h && h["User-Agent"] == USER_AGENT &&
    ("Range" in h <==> Truthy(req.range)) &&
    ("Range" in h ==> h["Range"] == req.range.value) &&
    h.Keys <= {"User-Agent", "Range"}
  }

  /** The headers written to the receiver: the upstream content type or `audio/webm`, byte
      ranges, open CORS, and the length and range exactly when the upstream sent them. */
  predicate MirroredHeaders(res: UpstreamResponse, h: map<string, string>) {
    "Content-Type" in h && h["Content-Type"] == OrStr(res.contentType, "audio/webm") &&
    "Accept-Ranges" in h && h["Accept-Ranges"] == "bytes" &&
    "Access-Control-Allow-Origin" in h && h["Access-Control-Allow-Origin"] == "*" &&
    ("Content-Length" in h <==> Truthy(res.contentLength)) &&
    ("Content-Length" in h ==> h["Content-Length"] == res.contentLength.value) &&
    ("Content-Range" in h <==> Truthy(res.contentRange)) &&
    ("Content-Range" in h ==> h["Content-Range"] == res.contentRange.value) &&
    h.Keys <= {"Content-Type", "Accept-Ranges", "Access-Control-Allow-Origin", "Content-Length", "Content-Range"}
  }

  /** Builds the upstream request's headers in place. */
  method UpstreamHeaders(req: Request) returns (h: map<string, string>)
    ensures ForwardedHeaders(req, h)
  {
    h := map["User-Agent" := USER_AGENT];
    if Truthy(req.range) {
      h := h["Range" := req.range.value];
    }
  }

  /** Builds the reply's headers in place from the upstream response. */
  method ResponseHeaders(res: UpstreamResponse) returns (h: map<string, string>)
    ensures MirroredHeaders(res, h)
  {
    h := map["Content-Type" := OrStr(res.contentType, "audio/webm"),
             "Accept-Ranges" := "bytes",
             "Access-Control-Allow-Origin" := "*"];
    if Truthy(res.contentLength) {
      h := h["Content-Length" := res.contentLength.value];
    }
    if Truthy(res.contentRange) {
      h := h["Content-Range" := res.contentRange.value];
    }
  }

  // ─── Server state ───

  /** How binding the listening socket ends. */
  datatype ListenOutcome = Listening(port: nat) | BindError(err: string)

  class Proxy {
    var server: bool
    var currentStreamUrl: Option<string>
    var proxyPort: nat

    ghost predicate Valid()
      reads this
    {
      !server ==> proxyPort == 0
    }

    constructor ()
      ensures Valid() && !server && currentStreamUrl.None? && proxyPort == 0
    {
      server := false;
      currentStreamUrl := None;
      proxyPort := 0;
    }

    /** `getProxyUrl`. */
    function ProxyUrl(ifaces: seq<seq<Iface>>): (u: Option<string>)
      reads this
      ensures u.None? <==> !server
      ensures u.Some? ==> u.value == "http://" + LocalIP(ifaces) + ":" + NatToString(proxyPort) + "/stream"
    {
      if !server then None else Some("http://" + LocalIP(ifaces) + ":" + NatToString(proxyPort) + "/stream")
    }

    /** `startProxy`: a running server is reused and only its upstream URL replaced. */
    method StartProxy(streamUrl: Option<string>, listen: ListenOutcome, ifaces: seq<seq<Iface>>)
      returns (r: Result<Option<string>, string>)
      requires Valid()
      modifies this
      ensures Valid()
      ensures server && currentStreamUrl == streamUrl
      ensures old(server) ==> proxyPort == old(proxyPort) && r == Ok(old(ProxyUrl(ifaces)))
      ensures !old(server) && listen.Listening? ==> proxyPort == listen.port && r == Ok(ProxyUrl(ifaces))
      ensures !old(server) && listen.BindError? ==> proxyPort == 0 && r == Err(listen.err)
    {
      if server {
        currentStreamUrl := streamUrl;
        return Ok(ProxyUrl(ifaces));
      }
      currentStreamUrl := streamUrl;
      server := true;
      match listen {
        case Listening(port) =>
          proxyPort := port;
          r := Ok(ProxyUrl(ifaces));
        case BindError(e) =>
          r := Err(e);
      }
    }

    /** `stopProxy`: back to the initial state; a no-op without a server. */
    method StopProxy()
      requires Valid()
      modifies this
      ensures Valid()
      ensures old(server) ==> !server && proxyPort == 0 && currentStreamUrl.None?
      ensures !old(server) ==> !server && proxyPort == old(proxyPort) && currentStreamUrl == old(currentStreamUrl)
    {
      if server {
        server := false;
        proxyPort := 0;
        currentStreamUrl := None;
      }
    }

    method UpdateStreamUrl(newUrl: Option<string>)
      modifies this`currentStreamUrl
      ensures currentStreamUrl == newUrl
    {
      currentStreamUrl := newUrl;
    }

    /** One request to the relay: route, forward, mirror the response, or fail with 502. */
    method HandleRequest(req: Request, event: UpstreamEvent, downstreamCloses: bool) returns (x: Exchange)
      ensures req.url != "/stream" || !Truthy(currentStreamUrl) ==>
        x == Exchange(None, Reply(404, map[], NoBody), false)
      ensures req.url == "/stream" && Truthy(currentStreamUrl) ==>
        x.upstream.Some? && x.upstream.value.0 == currentStreamUrl.value &&
        x.upstreamDestroyed == downstreamCloses &&
        match event
        case Answered(res) => x.reply.status == res.status && x.reply.body == Piped
        case FailsBeforeResponse => x.reply == Reply(502, map[], NoBody)
        case FailsWhilePiping(res) => x.reply.status == res.status && x.reply.body == Truncated
      ensures x.upstream.Some? ==> ForwardedHeaders(req, x.upstream.value.1)
      ensures (event.Answered? || event.FailsWhilePiping?) && x.upstream.Some? ==>
        MirroredHeaders(event.res, x.reply.headers)
    {
      if req.url != "/stream" || !Truthy(currentStreamUrl) {
        return Exchange(None, Reply(404, map[], NoBody), false);
      }
      var headers := UpstreamHeaders(req);
      var reply: Reply;
      match event {
        case Answered(res) =>
          var h := ResponseHeaders(res);
          reply := Reply(res.status, h, Piped);
        case FailsBeforeResponse =>
          // the headers were not sent yet
          reply := Reply(502, map[], NoBody);
        case FailsWhilePiping(res) =>
          // the headers were already sent: nothing more is written
          var h := ResponseHeaders(res);
          reply := Reply(res.status, h, Truncated);
      }
      x := Exchange(Some((currentStreamUrl.value, headers)), reply, downstreamCloses);
    }
  }

  /** A ranged request answered with 206 reaches the receiver as a 206 that carries the
      upstream `Content-Range` and advertises byte ranges. */
  method RangedRequestScenario(p: Proxy, range: string, contentRange: string)
    requires p.currentStreamUrl.Some? && p.currentStreamUrl.value != ""
    requires range != "" && contentRange != ""
  {
    var res := UpstreamResponse(206, None, None, Some(contentRange));
    var x := p.HandleRequest(Request("/stream", Some(range)), Answered(res), false);
    assert x.upstream.value.1["Range"] == range;
    assert x.reply.status == 206 && x.reply.headers["Content-Range"] == contentRange;
    assert x.reply.headers["Accept-Ranges"] == "bytes" && x.reply.headers["Content-Type"] == "audio/webm";
    assert "Content-Length" !in x.reply.headers;
    var y := p.HandleRequest(Request("/stream?x=1", Some(range)), Answered(res), false);
    assert y.reply.status == 404;
  }

  /** Starting twice reuses the server, and stopping twice is the same as stopping once. */
  method StartStopScenario(ifaces: seq<seq<Iface>>, port: nat)
  {
    var p := new Proxy();
    var r1 := p.StartProxy(Some("https://a/1"), Listening(port), ifaces);
    var r2 := p.StartProxy(Some("https://a/2"), Listening(port + 1), ifaces);
    assert r1 == r2 && p.proxyPort == port && p.currentStreamUrl == Some("https://a/2");
    p.StopProxy();
    assert p.ProxyUrl(ifaces).None?;
    p.StopProxy();
    assert !p.server && p.proxyPort == 0 && p.currentStreamUrl.None?;
  }
}
