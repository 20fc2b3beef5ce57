/** The renderer's cast hook: discovery results, connecting to a device and
    moving the current track onto it, disconnecting and resuming locally, and
    mirroring the receiver's status into the play state. The shared signals are
    the fields of a class; each awaited bridge call is replaced by its outcome,
    and the calls made are recorded in order. */
module UseCast {
  import opened JsValues
  import CastService

  /** A status as the bridge delivers it. */
  datatype Status = Status(playerState: Option<string>, currentTime: Option<real>, duration: Option<real>)

  /** The current track, by the fields the hook reads. */
  datatype TrackInfo = TrackInfo(url: string, title: Option<string>, artist: Option<string>, thumbnail: Option<string>)

  /** Calls made on the cast bridge after connecting. */
  datatype CastCall = LoadMedia(url: string, title: Option<string>, artist: Option<string>, thumbnail: Option<string>)
                    | Seek(position: real)
                    | Pause

  /** What `disconnectCast` arranges for local playback once the audio can play. */
  datatype Resume = Resume(src: string, position: real, play: bool)

  /** The play state after a status: PLAYING plays, PAUSED pauses, IDLE pauses only a playing
      track whose duration is known, anything else leaves it. */
  function PlayingAfter(wasPlaying: bool, state: Option<string>, duration: real): (p: bool)
    ensures state == Some("PLAYING") ==> p
    ensures state == Some("PAUSED") ==> !p
    ensures state == Some("IDLE") ==> (p <==> wasPlaying && duration <= 0.0)
    ensures state != Some("PLAYING") && state != Some("PAUSED") && state != Some("IDLE") ==> p == wasPlaying
  {
    if state == Some("PLAYING") then true
    else if state == Some("PAUSED") then false
    else if state == Some("IDLE") then (if wasPlaying && duration > 0.0 then false else wasPlaying)
    else wasPlaying
  }

  /** Only a PLAYING status can start playback, and an IDLE status with no known duration (a
      receiver that has not loaded anything yet) changes nothing. */
  lemma OnlyPlayingStarts(wasPlaying: bool, state: Option<string>, duration: real)
    ensures PlayingAfter(wasPlaying, state, duration) ==> wasPlaying || state == Some("PLAYING")
    ensures duration <= 0.0 ==> PlayingAfter(wasPlaying, Some("IDLE"), duration) == wasPlaying
    ensures state == Some("IDLE") ==> !PlayingAfter(wasPlaying, state, duration) || wasPlaying
  {
  }

  /** Delivering the same status twice has the same effect as delivering it once. */
  lemma StatusIsIdempotent(wasPlaying: bool, state: Option<string>, duration: real)
    ensures PlayingAfter(PlayingAfter(wasPlaying, state, duration), state, duration) ==
            PlayingAfter(wasPlaying, state, duration)
  {
  }

  /** The position to resume from on the new device. */
  function StartPosition(isCasting: bool, castPosition: real, audioTime: Option<real>): (p: real)
    ensures isCasting ==> p == castPosition
    ensures !isCasting ==> p == OrZero(audioTime)
  {
    if isCasting then castPosition else OrZero(audioTime)
  }

  const CONNECT_FAILED: string := "Failed to connect to cast device"

  /** What `connectDevice` does once connected: the bridge calls it makes, in order, and
      whether one of the awaited steps failed (a failed step ends the sequence). */
  function AfterConnect(track: Option<TrackInfo>, streamUrl: Result<string, string>, loadOk: bool,
                        seekOk: bool, pauseOk: bool, position: real, wasPlaying: bool): (r: (seq<CastCall>, bool))
  {
    if track.None? then ([], false)
    else if streamUrl.Err? then ([], true)
    else
      var load := [LoadMedia(streamUrl.value, track.value.title, track.value.artist, track.value.thumbnail)];
      if !loadOk then (load, true)
      else if position > 1.0 && !seekOk then (load + [Seek(position)], true)
      else
        var seek := if position > 1.0 then [Seek(position)] else [];
        var pause := if !wasPlaying then [Pause] else [];
        (load + seek + pause, !wasPlaying && !pauseOk)
  }

  /** After connecting, the track is loaded first; the saved position is sought iff the load
      succeeded and it is past the first second; the receiver is paused iff everything before
      succeeded and the track was not playing; nothing is sent without a current track. */
  lemma AfterConnectCalls(track: Option<TrackInfo>, streamUrl: Result<string, string>, loadOk: bool,
                          seekOk: bool, pauseOk: bool, position: real, wasPlaying: bool)
    ensures var r := AfterConnect(track, streamUrl, loadOk, seekOk, pauseOk, position, wasPlaying);
      var loaded := track.Some? && streamUrl.Ok? && loadOk;
      (track.None? ==> r == ([], false)) &&
      (track.Some? && streamUrl.Ok? ==>
        |r.0| >= 1 && r.0[0] == LoadMedia(streamUrl.value, track.value.title, track.value.artist, track.value.thumbnail)) &&
      (Seek(position) in r.0 <==> loaded && position > 1.0) &&
      (Pause in r.0 <==> loaded && (position <= 1.0 || seekOk) && !wasPlaying) &&
      (r.1 <==> track.Some? && (streamUrl.Err? || !loadOk || (position > 1.0 && !seekOk) ||
                                ((position > 1.0 ==> seekOk) && !wasPlaying && !pauseOk)))
  {
  }

  class Hook {
    var isCasting: bool
    var castDevice: Option<CastService.SessionInfo>
    var castDevices: seq<CastService.DeviceInfo>
    var castPickerVisible: bool
    var castPosition: real
    var castDuration: real
    var isPlaying: bool
    var audioPaused: bool
    var toasts: seq<string>
    var calls: seq<CastCall>
    var resume: Option<Resume>

    constructor ()
      ensures !isCasting && castDevice.None? && castDevices == [] && !castPickerVisible
      ensures castPosition == 0.0 && castDuration == 0.0 && !isPlaying && audioPaused
      ensures toasts == [] && calls == [] && resume.None?
    {
      isCasting := false;
      castDevice := None;
      castDevices := [];
      castPickerVisible := false;
      castPosition := 0.0;
      castDuration := 0.0;
      isPlaying := false;
      audioPaused := true;
      toasts := [];
      calls := [];
      resume := None;
    }

    /** `startDiscovery`: only a non-empty answer replaces the device list. */
    method StartDiscovery(answer: Result<seq<CastService.DeviceInfo>, string>)
      modifies this`castDevices
      ensures answer.Ok? && |answer.value| > 0 ==> castDevices == answer.value
      ensures !(answer.Ok? && |answer.value| > 0) ==> castDevices == old(castDevices)
    {
      if answer.Ok? && |answer.value| > 0 {
        castDevices := answer.value;
      }
    }

    /** The `cast:status` listener. */
    method HandleStatus(status: Status)
      modifies this`castPosition, this`castDuration, this`isPlaying
      ensures !isCasting ==>
        castPosition == old(castPosition) && castDuration == old(castDuration) && isPlaying == old(isPlaying)
      ensures isCasting ==>
        castPosition == OrZero(status.currentTime) && castDuration == OrZero(status.duration) &&
        isPlaying == PlayingAfter(old(isPlaying), status.playerState, castDuration)
    {
      if !isCasting {
        return;
      }
      castPosition := OrZero(status.currentTime);
      castDuration := OrZero(status.duration);
      if status.playerState == Some("PLAYING") {
        isPlaying := true;
      } else if status.playerState == Some("PAUSED") {
        isPlaying := false;
      } else if status.playerState == Some("IDLE") {
        if isPlaying && castDuration > 0.0 {
          isPlaying := false;
        }
      }
    }

    /** `connectDevice`. The outcomes of the bridge calls are parameters. A failure after
        connecting is reported, but the connected state set before loading stays. */
    method ConnectDevice(track: Option<TrackInfo>, hasAudio: bool, audioTime: Option<real>,
                         connect: Result<CastService.SessionInfo, string>, streamUrl: Result<string, string>,
                         loadOk: bool, seekOk: bool, pauseOk: bool)
      modifies this`isCasting, this`castDevice, this`castPickerVisible, this`audioPaused, this`toasts, this`calls
      ensures connect.Err? ==>
        isCasting == old(isCasting) && castDevice == old(castDevice) &&
        castPickerVisible == old(castPickerVisible) && audioPaused == old(audioPaused) &&
        calls == old(calls) && toasts == old(toasts) + [CONNECT_FAILED]
      ensures connect.Ok? ==>
        isCasting && castDevice == Some(connect.value) && !castPickerVisible &&
        audioPaused == (old(audioPaused) || hasAudio)
      ensures connect.Ok? ==>
        var position := StartPosition(old(isCasting), old(castPosition), if hasAudio then audioTime else None);
        var after := AfterConnect(track, streamUrl, loadOk, seekOk, pauseOk, position, old(isPlaying));
        calls == old(calls) + after.0 &&
        toasts == old(toasts) + ["Connected to " + connect.value.name] + (if after.1 then [CONNECT_FAILED] else [])
    {
      var wasPlaying := isPlaying;
      var position := StartPosition(isCasting, castPosition, if hasAudio then audioTime else None);
      if connect.Err? {
        toasts := toasts + [CONNECT_FAILED];
        return;
      }
      var result := connect.value;
      if hasAudio && !audioPaused {
        audioPaused := true;
      }
      isCasting := true;
      castDevice := Some(result);
      castPickerVisible := false;
      toasts := toasts + ["Connected to " + result.name];
      LoadOnDevice(track, streamUrl, loadOk, seekOk, pauseOk, position, wasPlaying);
    }

    /** The second half of `connectDevice`: load the current track, seek, pause; a failed step
        ends the sequence with the failure toast. */
    method LoadOnDevice(track: Option<TrackInfo>, streamUrl: Result<string, string>, loadOk: bool,
                        seekOk: bool, pauseOk: bool, position: real, wasPlaying: bool)
      modifies this`toasts, this`calls
      ensures var after := AfterConnect(track, streamUrl, loadOk, seekOk, pauseOk, position, wasPlaying);
        calls == old(calls) + after.0 && toasts == old(toasts) + (if after.1 then [CONNECT_FAILED] else [])
    {
      if track.None? {
        return;
      }
      var t := track.value;
      if streamUrl.Err? {
        toasts := toasts + [CONNECT_FAILED];
        return;
      }
      calls := calls + [LoadMedia(streamUrl.value, t.title, t.artist, t.thumbnail)];
      if !loadOk {
        toasts := toasts + [CONNECT_FAILED];
        return;
      }
      if position > 1.0 {
        calls := calls + [Seek(position)];
        if !seekOk {
          toasts := toasts + [CONNECT_FAILED];
          return;
        }
      }
      if !wasPlaying {
        calls := calls + [Pause];
        if !pauseOk {
          toasts := toasts + [CONNECT_FAILED];
        }
      }
    }

    /** `disconnectCast`: the cast state is reset whether or not the bridge call fails; local
        playback is then pointed at the track's stream, to resume at the cast position. */
    method DisconnectCast(track: Option<TrackInfo>, hasAudio: bool, streamUrl: Result<string, string>)
      modifies this`isCasting, this`castDevice, this`castPosition, this`castDuration, this`toasts, this`resume
      ensures !isCasting && castDevice.None? && castPosition == 0.0 && castDuration == 0.0
      ensures toasts == old(toasts) + ["Disconnected from cast device"]
      ensures resume == if track.Some? && hasAudio && streamUrl.Ok?
                        then Some(Resume(streamUrl.value, old(castPosition), isPlaying))
                        else old(resume)
    {
      var position := castPosition;
      var wasPlaying := isPlaying;
      isCasting := false;
      castDevice := None;
      castPosition := 0.0;
      castDuration := 0.0;
      toasts := toasts + ["Disconnected from cast device"];
      if track.Some? && hasAudio && streamUrl.Ok? {
        resume := Some(Resume(streamUrl.value, position, wasPlaying));
      }
    }
  }

  /** Connecting while paused at 30 s loads, seeks and pauses; a later failure of the stream
      lookup on another connect leaves the hook marked as casting. */
  method ConnectScenario(info: CastService.SessionInfo, t: TrackInfo)
  {
    var h := new Hook();
    h.ConnectDevice(Some(t), true, Some(30.0), Ok(info), Ok("u"), true, true, true);
    assert h.isCasting && Seek(30.0) in h.calls && Pause in h.calls;
    h.ConnectDevice(Some(t), true, Some(30.0), Ok(info), Err("offline"), true, true, true);
    assert h.isCasting && h.toasts[|h.toasts| - 1] == CONNECT_FAILED;
    h.DisconnectCast(Some(t), true, Ok("local"));
    assert !h.isCasting && h.resume == Some(Resume("local", 0.0, false));
  }
}
