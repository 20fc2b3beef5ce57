/** The desktop sync client: building the push payload from the local library,
    and pulling changes since the last sync timestamp. The HTTP call is
    replaced by its outcome, the current time by a parameter, and the
    client-to-server track mapping (which is not part of this model) by a
    symbolic record of its arguments. */
module SyncService {
  import opened JsValues
  import opened FieldMapping
  import SyncMerge

  const EPOCH: string := "1970-01-01T00:00:00Z"

  /** The extra fields merged into a server track. */
  datatype Extra = PositionExtra(position: nat) | LikedAtExtra(liked_at: string) | PlayedAtExtra(played_at: string)

  /** `mapTrackToServer(track, extra)`, kept symbolic. */
  datatype ServerTrack = ServerTrack(track: Track, extra: Extra)

  datatype Settings = Settings(entries: map<string, string>)

  datatype LocalState = LocalState(
    playlists: Option<seq<Playlist>>,
    likedSongs: Option<seq<Track>>,
    recentTracks: Option<seq<Track>>,
    settings: Option<Settings>)

  datatype PushPlaylist = PushPlaylist(
    id: Option<string>,
    name: Option<string>,
    description: string,
    coverUrl: string,
    position: int,
    tracks: seq<ServerTrack>,
    updated_at: string,
    deleted_at: Option<string>)

  datatype Payload = Payload(
    playlists: seq<PushPlaylist>,
    likedSongs: seq<ServerTrack>,
    history: seq<ServerTrack>,
    settings: Option<Settings>)

  /** What the pull endpoint answers. */
  datatype PullData = PullData(syncTimestamp: Option<string>, changes: SyncMerge.Remote)

  /** The tracks of a pushed playlist, each tagged with its index. */
  function PositionedTracks(ts: seq<Track>): (r: seq<ServerTrack>)
    ensures |r| == |ts|
    ensures forall i :: 0 <= i < |ts| ==> r[i] == ServerTrack(ts[i], PositionExtra(i))
  {
    seq(|ts|, i requires 0 <= i < |ts| => ServerTrack(ts[i], PositionExtra(i)))
  }

  /** One playlist of the push payload. */
  function PushPlaylistOf(p: Playlist, now: string): (r: PushPlaylist)
    ensures r.id == p.id && r.name == p.name
    ensures r.description == OrStr(p.description, "") && r.coverUrl == OrStr(p.coverUrl, "")
    ensures r.position == Coalesce(p.position, 0)
    ensures r.updated_at == OrStr(p.updated_at, now)
    ensures r.deleted_at == (if Truthy(p.deleted_at) then p.deleted_at else None)
    ensures r.tracks == PositionedTracks(SyncMerge.OrEmpty(p.tracks))
  {
    PushPlaylist(p.id, p.name, OrStr(p.description, ""), OrStr(p.coverUrl, ""), Coalesce(p.position, 0),
                 PositionedTracks(SyncMerge.OrEmpty(p.tracks)), OrStr(p.updated_at, now),
                 if Truthy(p.deleted_at) then p.deleted_at else None)
  }

  function LikedForPush(ss: seq<Track>, now: string): (r: seq<ServerTrack>)
    ensures |r| == |ss|
    ensures forall i :: 0 <= i < |ss| ==> r[i] == ServerTrack(ss[i], LikedAtExtra(OrStr(ss[i].liked_at, now)))
  {
    seq(|ss|, i requires 0 <= i < |ss| => ServerTrack(ss[i], LikedAtExtra(OrStr(ss[i].liked_at, now))))
  }

  function HistoryForPush(hs: seq<Track>, now: string): (r: seq<ServerTrack>)
    ensures |r| == |hs|
    ensures forall i :: 0 <= i < |hs| ==> r[i] == ServerTrack(hs[i], PlayedAtExtra(OrStr(hs[i].played_at, now)))
  {
    seq(|hs|, i requires 0 <= i < |hs| => ServerTrack(hs[i], PlayedAtExtra(OrStr(hs[i].played_at, now))))
  }

  /** `syncPush`: the payload POSTed to `/sync/push`, or the error thrown before any request. */
  function SyncPush(authenticated: bool, state: LocalState, now: string): (r: Result<Payload, string>)
    ensures !authenticated <==> r == Err("Not authenticated")
    ensures r.Ok? ==>
      |r.value.playlists| == |SyncMerge.OrEmpty(state.playlists)| &&
      |r.value.likedSongs| == |SyncMerge.OrEmpty(state.likedSongs)| &&
      |r.value.history| == |SyncMerge.OrEmpty(state.recentTracks)| &&
      r.value.settings == state.settings
    ensures r.Ok? ==>
      (forall i :: 0 <= i < |r.value.playlists| ==>
        r.value.playlists[i] == PushPlaylistOf(SyncMerge.OrEmpty(state.playlists)[i], now)) &&
      r.value.likedSongs == LikedForPush(SyncMerge.OrEmpty(state.likedSongs), now) &&
      r.value.history == HistoryForPush(SyncMerge.OrEmpty(state.recentTracks), now)
  {
    if !authenticated then Err("Not authenticated")
    else
      var ps := SyncMerge.OrEmpty(state.playlists);
      Ok(Payload(
        seq(|ps|, i requires 0 <= i < |ps| => PushPlaylistOf(ps[i], now)),
        LikedForPush(SyncMerge.OrEmpty(state.likedSongs), now),
        HistoryForPush(SyncMerge.OrEmpty(state.recentTracks), now),
        state.settings))
  }

  /** Every pushed track carries its index in its playlist as `position`, and the tracks keep
      their order. */
  lemma {:induction false} PushedTrackPositions(authenticated: bool, state: LocalState, now: string, k: nat, i: nat)
    requires authenticated && k < |SyncMerge.OrEmpty(state.playlists)|
    requires i < |SyncMerge.OrEmpty(SyncMerge.OrEmpty(state.playlists)[k].tracks)|
    ensures var pp := SyncPush(authenticated, state, now).value.playlists[k];
      i < |pp.tracks| &&
      pp.tracks[i] == ServerTrack(SyncMerge.OrEmpty(SyncMerge.OrEmpty(state.playlists)[k].tracks)[i], PositionExtra(i))
  {
    var p := SyncMerge.OrEmpty(state.playlists)[k];
    assert SyncPush(authenticated, state, now).value.playlists[k] == PushPlaylistOf(p, now);
  }

  /** An empty local state pushes three empty lists. */
  lemma EmptyStatePushesEmptyLists(now: string)
    ensures SyncPush(true, LocalState(None, None, None, None), now) == Ok(Payload([], [], [], None))
  {
  }

  /** Client playlists keep their cover in `coverImage`, but the push reads `coverUrl`: a cover
      that came from the server through `mapPlaylist` is pushed back as `''`. */
  lemma CoverDoesNotRoundTrip(rp: Playlist, now: string)
    requires Truthy(rp.coverImage)
    ensures MapPlaylist(rp).coverImage == rp.coverImage
    ensures PushPlaylistOf(MapPlaylist(rp), now).coverUrl == ""
  {
  }

  /** The module-level sync timestamp and the pull. */
  class SyncState {
    var lastSyncAt: Option<string>

    constructor ()
      ensures lastSyncAt.None?
    {
      lastSyncAt := None;
    }

    method GetLastSyncAt() returns (ts: Option<string>)
      ensures ts == lastSyncAt
    {
      ts := lastSyncAt;
    }

    method SetLastSyncAt(ts: Option<string>)
      modifies this
      ensures lastSyncAt == ts
    {
      lastSyncAt := ts;
    }

    /** The `since` value of the next pull. */
    function Since(): (s: string)
      reads this
      ensures s != ""
      ensures Truthy(lastSyncAt) ==> s == lastSyncAt.value
      ensures !Truthy(lastSyncAt) ==> s == EPOCH
    {
      OrStr(lastSyncAt, EPOCH)
    }

    /** `syncPull`: `since` is the request issued (if any); the timestamp is stored only after
        a successful response. */
    method SyncPull(authenticated: bool, reply: Result<PullData, string>)
      returns (since: Option<string>, r: Result<PullData, string>)
      modifies this
      ensures !authenticated ==> since.None? && r == Err("Not authenticated") && lastSyncAt == old(lastSyncAt)
      ensures authenticated ==> since == Some(old(Since())) && r == reply
      ensures authenticated && reply.Ok? ==> lastSyncAt == reply.value.syncTimestamp
      ensures reply.Err? ==> lastSyncAt == old(lastSyncAt)
    {
      if !authenticated {
        return None, Err("Not authenticated");
      }
      since := Some(OrStr(lastSyncAt, EPOCH));
      if reply.Err? {
        return since, reply;
      }
      lastSyncAt := reply.value.syncTimestamp;
      r := reply;
    }
  }

  /** Two pulls in a row: the first asks since the epoch, the second since the timestamp the
      first returned; a stored timestamp reads back unchanged. */
  method ConsecutivePulls(t: string, d1: PullData, d2: PullData)
    requires t != "" && d1.syncTimestamp == Some(t)
  {
    var s := new SyncState();
    var since1, r1 := s.SyncPull(true, Ok(d1));
    assert since1 == Some(EPOCH);
    var since2, r2 := s.SyncPull(true, Ok(d2));
    assert since2 == Some(t);
    s.SetLastSyncAt(Some("2025-01-01T00:00:00Z"));
    var back := s.GetLastSyncAt();
    assert back == Some("2025-01-01T00:00:00Z");
  }
}
