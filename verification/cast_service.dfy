/** The desktop cast service: a device registry fed by DNS-SD announcements
    (RFC 6763, with `id` and `fn` from the TXT record of section 6), a single
    control session to one receiver, the media commands issued through it, and
    the status records pushed to the window. Sockets, the discovery library and
    the Cast protocol client are replaced by the outcomes they deliver. */
module CastService {
  import opened JsValues

  const SCAN_INTERVAL_MS: int := 30000
  const DEVICE_TTL_MS: int := 60000
  const DEFAULT_CAST_PORT: nat := 8009
  const POLL_INTERVAL_MS: int := 1000

  /** One announcement as the discovery library delivers it. */
  datatype Service = Service(
    txtId: Option<string>,
    txtFn: Option<string>,
    name: Option<string>,
    port: Option<nat>,
    refererAddress: Option<string>,
    addresses: seq<string>)

  datatype Device = Device(name: string, host: string, port: nat, id: string, lastSeen: int)

  /** The fields of a device that leave the registry (no `lastSeen`). */
  datatype DeviceInfo = DeviceInfo(name: string, host: string, port: nat, id: string)

  /** What `connectToDevice` resolves with. */
  datatype SessionInfo = SessionInfo(name: string, host: string, id: string)

  /** The media player handle of a launched receiver; `hasMediaSession` is `player.media.currentSession`,
      which the receiver's media status fills in: absent right after the launch, present once a load
      has been answered. */
  datatype Player = Player(hasMediaSession: bool)

  /** A status object as the receiver reports it. */
  datatype RawStatus = RawStatus(
    playerState: Option<string>,
    currentTime: Option<real>,
    mediaDuration: Option<real>,
    volumeLevel: Option<real>)

  /** The fixed record pushed on the `cast:status` channel. */
  datatype StatusSnapshot = StatusSnapshot(playerState: string, currentTime: real, duration: real, volume: real)

  datatype UiEvent = DevicesChanged(devices: seq<DeviceInfo>) | StatusChanged(status: StatusSnapshot)

  datatype MediaMetadata = MediaMetadata(title: Option<string>, artist: Option<string>, thumbnail: Option<string>)

  /** The media description sent with a load request. */
  datatype Media = Media(contentId: string, contentType: string, streamType: string,
                         title: string, subtitle: string, images: seq<string>, autoplay: bool)

  /** Commands sent to the receiver, in order. */
  datatype Command =
    | LoadCmd(media: Media)
    | PlayCmd
    | PauseCmd
    | SeekCmd(time: real)
    | VolumeCmd(level: real)
    | StopCmd
    | GetStatusCmd

  /** How the connect and launch handshake of one `connectToDevice` call ends. */
  datatype ConnectOutcome =
    | NeverConnects            // the control connection never calls back
    | LaunchFails(err: string) // connected, but launching the receiver app failed
    | Launched                 // connected and launched

  /** The state of the promise `connectToDevice` returned. */
  datatype ConnectResult = Pending | Rejected(err: string) | Resolved(info: SessionInfo)

  // ─── Discovery as functions of the device list ───

  /** The id of an announcement: the TXT `id`, else `"<name>-<port>"`. */
  function ServiceId(s: Service): (id: string)
    ensures Truthy(s.txtId) ==> id == s.txtId.value
    ensures !Truthy(s.txtId) && s.port.Some? ==> id == Show(s.name) + "-" + NatToString(s.port.value)
  {
    if Truthy(s.txtId) then s.txtId.value
    else Show(s.name) + "-" + (if s.port.Some? then NatToString(s.port.value) else "undefined")
  }

  /** The host of an announcement: `referer.address || addresses[0]`; `None` when falsy. */
  function ServiceHost(s: Service): (h: Option<string>)
    ensures h.Some? ==> h.value != ""
    ensures h.None? <==> !Truthy(s.refererAddress) && (|s.addresses| == 0 || s.addresses[0] == "")
  {
    if Truthy(s.refererAddress) then s.refererAddress
    else if |s.addresses| > 0 && s.addresses[0] != "" then Some(s.addresses[0])
    else None
  }

  /** The device a new announcement creates. */
  function NewDevice(s: Service, host: string, now: int): (d: Device)
    ensures d.id == ServiceId(s) && d.host == host && d.lastSeen == now
    ensures d.name == OrStr(Or(s.txtFn, s.name), "Chromecast")
    ensures d.port == (if s.port.Some? && s.port.value != 0 then s.port.value else DEFAULT_CAST_PORT)
  {
    Device(OrStr(Or(s.txtFn, s.name), "Chromecast"), host,
           if s.port.Some? && s.port.value != 0 then s.port.value else DEFAULT_CAST_PORT,
           ServiceId(s), now)
  }

  predicate HasId(devices: seq<Device>, id: string) {
    exists i :: 0 <= i < |devices| && devices[i].id == id
  }

  /** No two registry entries share an id. */
  predicate UniqueIds(devices: seq<Device>) {
    forall i, j :: 0 <= i < j < |devices| ==> devices[i].id != devices[j].id
  }

  /** The registry after one announcement, and whether a devices event is emitted. */
  function Announce(devices: seq<Device>, s: Service, now: int): (r: (seq<Device>, bool))
    ensures r.1 <==> ServiceHost(s).Some? && !HasId(devices, ServiceId(s))
    ensures |r.0| == |devices| + (if r.1 then 1 else 0)
    ensures r.1 ==> r.0[..|devices|] == devices && r.0[|devices|].id == ServiceId(s)
    ensures forall i :: 0 <= i < |devices| ==> r.0[i].id == devices[i].id
  {
    var host := ServiceHost(s);
    if host.None? then (devices, false)
    else
      var id := ServiceId(s);
      if HasId(devices, id) then
        (seq(|devices|, i requires 0 <= i < |devices| =>
           if devices[i].id == id then devices[i].(lastSeen := now) else devices[i]), false)
      else (devices + [NewDevice(s, host.value, now)], true)
  }

  /** An announcement of a known id refreshes only that entry's `lastSeen` and emits nothing. */
  lemma AnnounceKnownRefreshes(devices: seq<Device>, s: Service, now: int, k: nat)
    requires UniqueIds(devices) && ServiceHost(s).Some?
    requires k < |devices| && devices[k].id == ServiceId(s)
    ensures Announce(devices, s, now) == (devices[k := devices[k].(lastSeen := now)], false)
  {
    var r := Announce(devices, s, now).0;
    assert HasId(devices, ServiceId(s));
    assert |r| == |devices|;
    var expected := devices[k := devices[k].(lastSeen := now)];
    forall i | 0 <= i < |devices| ensures r[i] == expected[i] {
    }
    assert r == expected;
  }

  /** An announcement without a usable host changes nothing; a new id is appended with one event. */
  lemma AnnounceNewOrDropped(devices: seq<Device>, s: Service, now: int)
    ensures ServiceHost(s).None? ==> Announce(devices, s, now) == (devices, false)
    ensures ServiceHost(s).Some? && !HasId(devices, ServiceId(s)) ==>
      Announce(devices, s, now) == (devices + [NewDevice(s, ServiceHost(s).value, now)], true)
  {
  }

  /** Announcements keep ids unique. */
  lemma AnnouncePreservesUnique(devices: seq<Device>, s: Service, now: int)
    requires UniqueIds(devices)
    ensures UniqueIds(Announce(devices, s, now).0)
  {
    var r := Announce(devices, s, now).0;
    if ServiceHost(s).Some? && !HasId(devices, ServiceId(s)) {
      forall i, j | 0 <= i < j < |r| ensures r[i].id != r[j].id {
        if j == |devices| {
          assert r[i] == devices[i];
        }
      }
    }
  }

  /** Announcing the same service over and over leaves exactly one entry for its id,
      stamped with the time of the most recent announcement. */
  lemma {:induction false} RepeatedAnnouncements(devices: seq<Device>, s: Service, times: seq<int>)
    requires UniqueIds(devices) && ServiceHost(s).Some? && |times| > 0
    requires !HasId(devices, ServiceId(s))
    ensures var r := AnnounceAll(devices, s, times);
      |r| == |devices| + 1 && r[..|devices|] == devices &&
      r[|devices|] == NewDevice(s, ServiceHost(s).value, times[|times| - 1])
    decreases |times|
  {
    var now := times[|times| - 1];
    if |times| == 1 {
      assert times[..0] == [];
      AnnounceNewOrDropped(devices, s, now);
      assert AnnounceAll(devices, s, times) == devices + [NewDevice(s, ServiceHost(s).value, now)];
    } else {
      RepeatedAnnouncements(devices, s, times[..|times| - 1]);
      var prev := AnnounceAll(devices, s, times[..|times| - 1]);
      assert AnnounceAll(devices, s, times) == Announce(prev, s, now).0;
      AnnouncePreservesUniqueAll(devices, s, times[..|times| - 1]);
      AnnounceKnownRefreshes(prev, s, now, |devices|);
      var r := prev[|devices| := prev[|devices|].(lastSeen := now)];
      assert r[..|devices|] == prev[..|devices|];
      assert AnnounceAll(devices, s, times) == r;
      assert |r| == |devices| + 1;
      assert r[|devices|] == NewDevice(s, ServiceHost(s).value, now);
    }
  }

  /** The registry after the same service is announced at each of `times`. */
  function AnnounceAll(devices: seq<Device>, s: Service, times: seq<int>): seq<Device>
    decreases |times|
  {
    if times == [] then devices
    else Announce(AnnounceAll(devices, s, times[..|times| - 1]), s, times[|times| - 1]).0
  }

  lemma {:induction false} AnnouncePreservesUniqueAll(devices: seq<Device>, s: Service, times: seq<int>)
    requires UniqueIds(devices)
    ensures UniqueIds(AnnounceAll(devices, s, times))
    decreases |times|
  {
    if times != [] {
      AnnouncePreservesUniqueAll(devices, s, times[..|times| - 1]);
      AnnouncePreservesUnique(AnnounceAll(devices, s, times[..|times| - 1]), s, times[|times| - 1]);
    }
  }

  predicate Fresh(d: Device, now: int) {
    now - d.lastSeen < DEVICE_TTL_MS
  }

  /** The registry after a sweep: the devices seen less than a TTL ago, in order. */
  function Prune(devices: seq<Device>, now: int): (r: seq<Device>)
    ensures |r| <= |devices|
    ensures forall d :: d in r <==> d in devices && Fresh(d, now)
    decreases |devices|
  {
    if devices == [] then []
    else (if Fresh(devices[0], now) then [devices[0]] else []) + Prune(devices[1..], now)
  }

  /** A single device survives the sweep exactly when it is fresh. */
  lemma PruneOfOne(d: Device, now: int)
    ensures Prune([d], now) == if Fresh(d, now) then [d] else []
  {
    assert [d][1..] == [];
  }

  /** The sweep of two joined lists is the sweep of the first followed by the sweep of the
      second; with `PruneOfOne` this fixes the survivors' order and keeps repeated entries. */
  lemma {:induction false} PruneKeepsOrder(a: seq<Device>, b: seq<Device>, now: int)
    ensures Prune(a + b, now) == Prune(a, now) + Prune(b, now)
    decreases |a|
  {
    if a == [] {
      assert a + b == b;
    } else {
      assert (a + b)[0] == a[0] && (a + b)[1..] == a[1..] + b;
      PruneKeepsOrder(a[1..], b, now);
    }
  }

  /** A sweep removes something (and so emits) exactly when some device is stale. */
  lemma {:induction false} PruneShrinksIffStale(devices: seq<Device>, now: int)
    ensures |Prune(devices, now)| < |devices| <==> exists d :: d in devices && !Fresh(d, now)
    decreases |devices|
  {
    if devices != [] {
      PruneShrinksIffStale(devices[1..], now);
      assert forall d :: d in devices <==> d == devices[0] || d in devices[1..];
    }
  }

  /** A sweep keeps ids unique. */
  lemma {:induction false} PrunePreservesUnique(devices: seq<Device>, now: int)
    requires UniqueIds(devices)
    ensures UniqueIds(Prune(devices, now))
    decreases |devices|
  {
    if devices != [] {
      PrunePreservesUnique(devices[1..], now);
      var rest := Prune(devices[1..], now);
      assert forall d :: d in rest ==> d in devices[1..];
      forall d | d in rest ensures d.id != devices[0].id {
        var j :| 0 <= j < |devices[1..]| && devices[1..][j] == d;
        assert devices[j + 1] == d;
      }
    }
  }

  function Info(d: Device): DeviceInfo {
    DeviceInfo(d.name, d.host, d.port, d.id)
  }

  /** The list sent to the window and returned by `startDiscovery`. */
  function Snapshot(devices: seq<Device>): (r: seq<DeviceInfo>)
    ensures |r| == |devices|
    ensures forall i :: 0 <= i < |r| ==> r[i] == Info(devices[i])
  {
    seq(|devices|, i requires 0 <= i < |devices| => Info(devices[i]))
  }

  /** `devices.find(d => d.id === id)`, as a search loop. */
  method FindDevice(devices: seq<Device>, id: string) returns (k: Option<nat>)
    ensures k.Some? ==> k.value < |devices| && devices[k.value].id == id &&
                        forall j :: 0 <= j < k.value ==> devices[j].id != id
    ensures k.None? ==> !HasId(devices, id)
  {
    var i := 0;
    while i < |devices|
      invariant 0 <= i <= |devices|
      invariant forall j :: 0 <= j < i ==> devices[j].id != id
    {
      if devices[i].id == id {
        return Some(i);
      }
      i := i + 1;
    }
    return None;
  }

  // ─── Status normalisation ───

  /** `emitStatus`'s record: state defaults to IDLE, times to 0, volume is `level ?? 1`. */
  function Normalize(raw: RawStatus): (st: StatusSnapshot)
    ensures st.playerState != ""
    ensures Truthy(raw.playerState) ==> st.playerState == raw.playerState.value
    ensures !Truthy(raw.playerState) ==> st.playerState == "IDLE"
    ensures st.currentTime == (if TruthyReal(raw.currentTime) then raw.currentTime.value else 0.0)
    ensures st.duration == (if TruthyReal(raw.mediaDuration) then raw.mediaDuration.value else 0.0)
    ensures raw.volumeLevel.Some? ==> st.volume == raw.volumeLevel.value
    ensures raw.volumeLevel.None? ==> st.volume == 1.0
  {
    StatusSnapshot(OrStr(raw.playerState, "IDLE"), OrZero(raw.currentTime),
                   OrZero(raw.mediaDuration), Coalesce(raw.volumeLevel, 1.0))
  }

  /** A reported volume of 0 is kept rather than replaced by the default. */
  lemma MutedVolumeIsKept(raw: RawStatus)
    requires raw.volumeLevel == Some(0.0)
    ensures Normalize(raw).volume == 0.0
  {
  }

  /** `Math.max(0, Math.min(1, level))`. */
  function ClampVolume(level: real): (v: real)
    ensures 0.0 <= v <= 1.0
    ensures 0.0 <= level <= 1.0 ==> v == level
    ensures level > 1.0 ==> v == 1.0
    ensures level < 0.0 ==> v == 0.0
  {
    if level < 0.0 then 0.0 else if level > 1.0 then 1.0 else level
  }

  /** The load request built from a proxy URL and the track's metadata. */
  function MediaFor(proxyUrl: string, meta: MediaMetadata): (m: Media)
    ensures m.contentId == proxyUrl && m.contentType == "audio/webm" && m.streamType == "BUFFERED" && m.autoplay
    ensures m.title == OrStr(meta.title, "Unknown") && m.subtitle == OrStr(meta.artist, "")
    ensures |m.images| <= 1 && (|m.images| == 1 <==> Truthy(meta.thumbnail))
  {
    Media(proxyUrl, "audio/webm", "BUFFERED", OrStr(meta.title, "Unknown"), OrStr(meta.artist, ""),
          if Truthy(meta.thumbnail) then [meta.thumbnail.value] else [], true)
  }

  // ─── The service state ───

  class Cast {
    var devices: seq<Device>
    var browsing: bool        // a discovery browser is open
    var browseStarts: nat     // how many browse sessions were opened
    var backgroundScan: bool  // the background timer is installed
    var client: Option<nat>   // the open control connection, by handle
    var nextClient: nat
    var player: Option<Player>
    var connectedDevice: Option<Device>
    var polling: bool
    var hasWindow: bool
    var pushed: seq<UiEvent>  // events sent to the window
    var commands: seq<Command>// commands sent to the receiver
    var closedClients: seq<nat>

    /** The invariant every operation keeps. */
    ghost predicate Valid()
      reads this
    {
      UniqueIds(devices) &&
      (player.Some? ==> client.Some?) &&
      (connectedDevice.Some? ==> client.Some?) &&
      (polling ==> player.Some?) &&
      (client.Some? ==> client.value < nextClient)
    }

    constructor ()
      ensures Valid()
      ensures devices == [] && !browsing && !backgroundScan && client.None? && player.None?
      ensures connectedDevice.None? && !polling && !hasWindow && pushed == [] && commands == []
      ensures closedClients == [] && nextClient == 0
    {
      devices := [];
      browsing := false;
      browseStarts := 0;
      backgroundScan := false;
      client := None;
      nextClient := 0;
      player := None;
      connectedDevice := None;
      polling := false;
      hasWindow := false;
      pushed := [];
      commands := [];
      closedClients := [];
    }

    /** `isConnected()`: a control connection and a launched player. */
    predicate IsConnected()
      reads this
    {
      client.Some? && player.Some?
    }

    method SetMainWindow()
      modifies this`hasWindow
      ensures hasWindow
    {
      hasWindow := true;
    }

    method EmitDevices()
      modifies this`pushed
      ensures pushed == old(pushed) + (if hasWindow then [DevicesChanged(Snapshot(devices))] else [])
    {
      if hasWindow {
        pushed := pushed + [DevicesChanged(Snapshot(devices))];
      }
    }

    /** `addOrUpdateDevice`, the discovery callback. */
    method AddOrUpdateDevice(s: Service, now: int)
      requires Valid()
      modifies this`devices, this`pushed
      ensures Valid()
      ensures devices == Announce(old(devices), s, now).0
      ensures pushed == old(pushed) +
        (if Announce(old(devices), s, now).1 && hasWindow then [DevicesChanged(Snapshot(devices))] else [])
    {
      AnnouncePreservesUnique(devices, s, now);
      var id := ServiceId(s);
      var host := ServiceHost(s);
      if host.None? {
        return;
      }
      var existing := FindDevice(devices, id);
      if existing.Some? {
        AnnounceKnownRefreshes(devices, s, now, existing.value);
        devices := devices[existing.value := devices[existing.value].(lastSeen := now)];
        return;
      }
      devices := devices + [NewDevice(s, host.value, now)];
      EmitDevices();
    }

    /** `pruneStaleDevices`, run once per scan interval. */
    method PruneStaleDevices(now: int)
      requires Valid()
      modifies this`devices, this`pushed
      ensures Valid()
      ensures devices == Prune(old(devices), now)
      ensures pushed == old(pushed) +
        (if |devices| < |old(devices)| && hasWindow then [DevicesChanged(Snapshot(devices))] else [])
    {
      PrunePreservesUnique(devices, now);
      var before := |devices|;
      devices := Prune(devices, now);
      if |devices| < before {
        EmitDevices();
      }
    }

    method StartBrowse()
      modifies this`browsing, this`browseStarts
      ensures browsing
      ensures browseStarts == if old(browsing) then old(browseStarts) else old(browseStarts) + 1
    {
      if browsing {
        return;
      }
      browsing := true;
      browseStarts := browseStarts + 1;
    }

    method StopBrowse()
      modifies this`browsing
      ensures !browsing
    {
      browsing := false;
    }

    /** `startBackgroundScan`: idempotent while the timer runs. */
    method StartBackgroundScan()
      modifies this`browsing, this`browseStarts, this`backgroundScan
      ensures backgroundScan
      ensures old(backgroundScan) ==> browseStarts == old(browseStarts) && browsing == old(browsing)
      ensures !old(backgroundScan) ==>
        browsing && browseStarts == (if old(browsing) then old(browseStarts) else old(browseStarts) + 1)
    {
      if backgroundScan {
        return;
      }
      StartBrowse();
      backgroundScan := true;
    }

    /** The body of the background timer: sweep, then restart the browse. */
    method BackgroundTick(now: int)
      requires Valid()
      modifies this`devices, this`pushed, this`browsing, this`browseStarts
      ensures Valid()
      ensures devices == Prune(old(devices), now)
      ensures pushed == old(pushed) +
        (if |devices| < |old(devices)| && hasWindow then [DevicesChanged(Snapshot(devices))] else [])
      ensures browsing && browseStarts == old(browseStarts) + 1
    {
      PruneStaleDevices(now);
      StopBrowse();
      StartBrowse();
    }

    /** `startDiscovery`: forces a fresh browse and returns the current snapshot. */
    method StartDiscovery() returns (snapshot: seq<DeviceInfo>)
      modifies this`browsing, this`browseStarts
      ensures snapshot == Snapshot(devices)
      ensures browsing && browseStarts == old(browseStarts) + 1
    {
      StopBrowse();
      StartBrowse();
      snapshot := Snapshot(devices);
    }

    /** `stopDiscovery`: the browse keeps running only when the background scan is on. */
    method StopDiscovery()
      modifies this`browsing, this`browseStarts
      ensures browsing == backgroundScan
      ensures browseStarts == old(browseStarts) + (if backgroundScan then 1 else 0)
    {
      StopBrowse();
      if backgroundScan {
        StartBrowse();
      }
    }

    /** `disconnectSync`: stop polling, best-effort stop and close, clear the session. */
    method DisconnectSync()
      requires Valid()
      modifies this`polling, this`player, this`client, this`connectedDevice, this`closedClients, this`commands
      ensures Valid()
      ensures !polling && player.None? && client.None? && connectedDevice.None?
      ensures !IsConnected()
      ensures closedClients == old(closedClients) + (if old(client).Some? then [old(client).value] else [])
      ensures commands == old(commands) + (if old(player).Some? then [StopCmd] else [])
    {
      polling := false;
      if player.Some? {
        commands := commands + [StopCmd];
        player := None;
      }
      if client.Some? {
        closedClients := closedClients + [client.value];
        client := None;
      }
      connectedDevice := None;
    }

    /** `disconnect`, and the handler of a control-connection error. */
    method Disconnect()
      requires Valid()
      modifies this`polling, this`player, this`client, this`connectedDevice, this`closedClients, this`commands
      ensures Valid()
      ensures !polling && player.None? && client.None? && connectedDevice.None?
      ensures closedClients == old(closedClients) + (if old(client).Some? then [old(client).value] else [])
      ensures commands == old(commands) + (if old(player).Some? then [StopCmd] else [])
    {
      DisconnectSync();
    }

    /** `connectToDevice`: look the id up, tear down any session, open a new one. */
    method ConnectToDevice(deviceId: string, outcome: ConnectOutcome) returns (r: ConnectResult)
      requires Valid()
      modifies this
      ensures Valid()
      ensures devices == old(devices) && pushed == old(pushed)
      ensures browsing == old(browsing) && browseStarts == old(browseStarts) &&
        backgroundScan == old(backgroundScan) && hasWindow == old(hasWindow)
      ensures !HasId(devices, deviceId) ==>
        r == Rejected("Device not found: " + deviceId) &&
        client == old(client) && player == old(player) && connectedDevice == old(connectedDevice) &&
        polling == old(polling) && closedClients == old(closedClients) && commands == old(commands)
      ensures HasId(devices, deviceId) ==> (IsConnected() <==> r.Resolved?)
      ensures HasId(devices, deviceId) ==>
        closedClients == old(closedClients) + (if old(client).Some? then [old(client).value] else []) &&
        commands == old(commands) + (if old(player).Some? then [StopCmd] else []) &&
        client == Some(old(nextClient)) &&
        match outcome
        case NeverConnects =>
          r == Pending && player.None? && connectedDevice.None? && !polling
        case LaunchFails(e) =>
          r == Rejected(e) && player.None? && !polling &&
          connectedDevice.Some? && connectedDevice.value in devices && connectedDevice.value.id == deviceId
        case Launched =>
          player == Some(Player(false)) && polling && connectedDevice.Some? &&
          connectedDevice.value in devices && connectedDevice.value.id == deviceId &&
          r == Resolved(SessionInfo(connectedDevice.value.name, connectedDevice.value.host, deviceId))
    {
      var k := FindDevice(devices, deviceId);
      if k.None? {
        return Rejected("Device not found: " + deviceId);
      }
      var device := devices[k.value];
      if client.Some? {
        DisconnectSync();
      }
      client := Some(nextClient);
      nextClient := nextClient + 1;
      match outcome {
        case NeverConnects =>
          r := Pending;
        case LaunchFails(e) =>
          connectedDevice := Some(device);
          r := Rejected(e);
        case Launched =>
          connectedDevice := Some(device);
          player := Some(Player(false));
          polling := true;
          r := Resolved(SessionInfo(device.name, device.host, device.id));
      }
    }

    /** `loadMedia`: needs a player; sends the media description with autoplay. The
        receiver's answer to a load is a media status, which gives the player its session. */
    method LoadMedia(proxyUrl: string, meta: MediaMetadata, reply: Result<RawStatus, string>)
      returns (r: Result<RawStatus, string>)
      modifies this`commands, this`player
      ensures player.None? <==> old(player).None?
      ensures old(player).None? ==> r == Err("No active cast session") && commands == old(commands)
      ensures old(player).Some? ==> r == reply && commands == old(commands) + [LoadCmd(MediaFor(proxyUrl, meta))]
      ensures old(player).Some? && reply.Ok? ==> HasMediaSession()
      ensures reply.Err? ==> player == old(player)
    {
      if player.None? {
        return Err("No active cast session");
      }
      commands := commands + [LoadCmd(MediaFor(proxyUrl, meta))];
      if reply.Ok? {
        player := Some(Player(true));
      }
      r := reply;
    }

    predicate HasMediaSession()
      reads this
    {
      player.Some? && player.value.hasMediaSession
    }

    /** `play`, `pause` and `seek` share this shape: without a media session they
        resolve `false` and send nothing; otherwise the receiver's reply decides. */
    method MediaCommand(cmd: Command, reply: Option<string>) returns (r: Result<bool, string>)
      requires cmd.PlayCmd? || cmd.PauseCmd? || cmd.SeekCmd?
      modifies this`commands
      ensures !HasMediaSession() ==> r == Ok(false) && commands == old(commands)
      ensures HasMediaSession() ==>
        commands == old(commands) + [cmd] && r == (if reply.Some? then Err(reply.value) else Ok(true))
    {
      if !HasMediaSession() {
        return Ok(false);
      }
      commands := commands + [cmd];
      r := if reply.Some? then Err(reply.value) else Ok(true);
    }

    /** `setVolume`: needs only the control connection; the level is clamped to [0, 1]. */
    method SetVolume(level: real, reply: Option<string>) returns (r: Result<(), string>)
      modifies this`commands
      ensures client.None? ==> r == Err("No active cast session") && commands == old(commands)
      ensures client.Some? ==>
        commands == old(commands) + [VolumeCmd(ClampVolume(level))] &&
        r == (if reply.Some? then Err(reply.value) else Ok(()))
    {
      if client.None? {
        return Err("No active cast session");
      }
      commands := commands + [VolumeCmd(ClampVolume(level))];
      r := if reply.Some? then Err(reply.value) else Ok(());
    }

    /** `stop`: rejects without a player. */
    method Stop(reply: Option<string>) returns (r: Result<(), string>)
      modifies this`commands
      ensures player.None? ==> r == Err("No active cast session") && commands == old(commands)
      ensures player.Some? ==>
        commands == old(commands) + [StopCmd] && r == (if reply.Some? then Err(reply.value) else Ok(()))
    {
      if player.None? {
        return Err("No active cast session");
      }
      commands := commands + [StopCmd];
      r := if reply.Some? then Err(reply.value) else Ok(());
    }

    /** `getStatus`: resolves `null` without a player. */
    method GetStatus(reply: Result<RawStatus, string>) returns (r: Result<Option<RawStatus>, string>)
      modifies this`commands
      ensures player.None? ==> r == Ok(None) && commands == old(commands)
      ensures player.Some? ==>
        commands == old(commands) + [GetStatusCmd] &&
        r == (if reply.Ok? then Ok(Some(reply.value)) else Err(reply.error))
    {
      if player.None? {
        return Ok(None);
      }
      commands := commands + [GetStatusCmd];
      r := if reply.Ok? then Ok(Some(reply.value)) else Err(reply.error);
    }

    /** `emitStatus`: pushes the normalised record when there is a window and a status. */
    method EmitStatus(raw: Option<RawStatus>)
      modifies this`pushed
      ensures pushed == old(pushed) +
        (if hasWindow && raw.Some? then [StatusChanged(Normalize(raw.value))] else [])
    {
      if !hasWindow || raw.None? {
        return;
      }
      pushed := pushed + [StatusChanged(Normalize(raw.value))];
    }

    /** One tick of the status poll: errors are swallowed, a status is pushed. */
    method PollTick(reply: Result<RawStatus, string>)
      modifies this`commands, this`pushed
      ensures commands == old(commands) + (if player.Some? then [GetStatusCmd] else [])
      ensures player.Some? && reply.Ok? && hasWindow ==>
        pushed == old(pushed) + [StatusChanged(Normalize(reply.value))]
      ensures !(player.Some? && reply.Ok? && hasWindow) ==> pushed == old(pushed)
    {
      var status := GetStatus(reply);
      if status.Ok? && status.value.Some? {
        EmitStatus(status.value);
      }
    }
  }

  /** Connecting to B while connected to A closes A's connection and leaves only B's session. */
  method SwitchDevicesScenario(a: Device, b: Device, missing: string)
    requires a.id != b.id && missing != a.id && missing != b.id
  {
    var cast := new Cast();
    cast.devices := [a, b];
    assert cast.devices[0].id == a.id && cast.devices[1].id == b.id;
    var r1 := cast.ConnectToDevice(a.id, Launched);
    assert r1.Resolved? && cast.IsConnected();
    var first := cast.client.value;
    var r2 := cast.ConnectToDevice(b.id, Launched);
    assert r2.Resolved?;
    assert cast.closedClients == [first];
    assert cast.connectedDevice == Some(b) && cast.client.value != first && cast.IsConnected();
    var r3 := cast.ConnectToDevice(missing, Launched);
    assert r3.Rejected? && cast.connectedDevice == Some(b) && cast.IsConnected();
  }

  /** The hook's path: connect, load, then seek. The launch leaves no media session, so a
      seek before the load sends nothing; the answered load opens one and the seek goes out. */
  method LoadThenSeekScenario(d: Device, meta: MediaMetadata, status: RawStatus, pos: real)
  {
    var cast := new Cast();
    cast.devices := [d];
    assert cast.devices[0].id == d.id;
    var c := cast.ConnectToDevice(d.id, Launched);
    assert c.Resolved? && !cast.HasMediaSession();
    var early := cast.MediaCommand(SeekCmd(pos), None);
    assert early == Ok(false);
    var sent := cast.commands;
    var l := cast.LoadMedia("http://10.0.0.2:8080/stream", meta, Ok(status));
    assert l == Ok(status) && cast.HasMediaSession();
    var seek := cast.MediaCommand(SeekCmd(pos), None);
    assert seek == Ok(true);
    assert cast.commands == sent + [LoadCmd(MediaFor("http://10.0.0.2:8080/stream", meta)), SeekCmd(pos)];
  }
}
