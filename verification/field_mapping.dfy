/** The mapping between the sync server's records (snake_case keys) and the
    client's (camelCase keys). A JavaScript object is modelled as a record with
    one optional slot per key the mapping reads or writes; an absent slot is an
    absent, `undefined` or `null` property. Key names are kept as in the wire
    format. */
module FieldMapping {
  import opened JsValues

  datatype Artist = Artist(name: Option<string>, id: Option<string>)

  /** An `artists` value: a list, or the result of `JSON.parse` on the given text
      (the parser itself is not modelled). */
  datatype Artists = Listed(items: seq<Artist>) | Parsed(json: string)

  /** A track-like object: a server row, a client track, a liked song or a history entry. */
  datatype Track = Track(
    track_id: Option<string>,
    id: Option<string>,
    title: Option<string>,
    artist: Option<string>,
    artist_id: Option<string>,
    artistId: Option<string>,
    artists: Option<Artists>,
    artists_json: Option<string>,
    album: Option<string>,
    album_id: Option<string>,
    albumId: Option<string>,
    thumbnail: Option<string>,
    duration: Option<string>,
    duration_ms: Option<int>,
    durationMs: Option<int>,
    url: Option<string>,
    liked_at: Option<string>,
    played_at: Option<string>,
    deleted_at: Option<string>)

  /** A playlist-like object, local or remote. */
  datatype Playlist = Playlist(
    id: Option<string>,
    name: Option<string>,
    description: Option<string>,
    coverImage: Option<string>,
    coverUrl: Option<string>,
    position: Option<int>,
    updated_at: Option<string>,
    deleted_at: Option<string>,
    tracks: Option<seq<Track>>)

  /** The object with no properties. */
  const EmptyTrack: Track :=
    Track(None, None, None, None, None, None, None, None, None, None, None, None, None, None, None, None, None, None, None)

  /** A track in client form: only the eleven client keys may be present. */
  predicate ClientShaped(t: Track) {
    t.track_id.None? && t.artist_id.None? && t.artists_json.None? && t.album_id.None? &&
    t.duration_ms.None? && t.liked_at.None? && t.played_at.None? && t.deleted_at.None? &&
    t.artists.Some?
  }

  /** The `artists` value: the list if present, else the parse of `artists_json`, else `[]`. */
  function ArtistsOf(t: Track): (a: Artists)
    ensures t.artists.Some? ==> a == t.artists.value
    ensures t.artists.None? && Truthy(t.artists_json) ==> a == Parsed(t.artists_json.value)
    ensures t.artists.None? && !Truthy(t.artists_json) ==> a == Listed([])
  {
    if t.artists.Some? then t.artists.value
    else if Truthy(t.artists_json) then Parsed(t.artists_json.value)
    else Listed([])
  }

  /** `mapTrack`: snake_case keys win over camelCase ones, and only the client keys survive. */
  function MapTrack(t: Track): (r: Track)
    ensures ClientShaped(r)
    ensures r.id == Or(t.track_id, t.id) && r.artistId == Or(t.artist_id, t.artistId)
    ensures r.albumId == Or(t.album_id, t.albumId) && r.durationMs == OrInt(t.duration_ms, t.durationMs)
    ensures r.artists == Some(ArtistsOf(t))
    ensures r.title == t.title && r.artist == t.artist && r.album == t.album
    ensures r.thumbnail == t.thumbnail && r.duration == t.duration && r.url == t.url
  {
    EmptyTrack.(
      id := Or(t.track_id, t.id),
      title := t.title,
      artist := t.artist,
      artistId := Or(t.artist_id, t.artistId),
      artists := Some(ArtistsOf(t)),
      album := t.album,
      albumId := Or(t.album_id, t.albumId),
      thumbnail := t.thumbnail,
      duration := t.duration,
      durationMs := OrInt(t.duration_ms, t.durationMs),
      url := t.url)
  }

  /** A track already in client form passes through `mapTrack` unchanged. */
  lemma MapTrackPassthrough(t: Track)
    requires ClientShaped(t)
    ensures MapTrack(t) == t
  {
  }

  /** `mapTrack` is idempotent. */
  lemma MapTrackIdempotent(t: Track)
    ensures MapTrack(MapTrack(t)) == MapTrack(t)
  {
    MapTrackPassthrough(MapTrack(t));
  }

  /** Keys outside the eleven it reads (timestamps, tombstones) never reach `mapTrack`'s output. */
  lemma MapTrackDropsOtherKeys(t: Track, likedAt: Option<string>, playedAt: Option<string>, deletedAt: Option<string>)
    ensures MapTrack(t.(liked_at := likedAt, played_at := playedAt, deleted_at := deletedAt)) == MapTrack(t)
  {
  }

  function MapTracks(ts: seq<Track>): (rs: seq<Track>)
    ensures |rs| == |ts|
    ensures forall i :: 0 <= i < |ts| ==> rs[i] == MapTrack(ts[i])
  {
    seq(|ts|, i requires 0 <= i < |ts| => MapTrack(ts[i]))
  }

  /** `mapPlaylist`: defaults for description, cover and position; tracks mapped one by one. */
  function MapPlaylist(rp: Playlist): (r: Playlist)
    ensures r.id == rp.id && r.name == rp.name && r.updated_at == rp.updated_at
    ensures r.description == Some(OrStr(rp.description, ""))
    ensures r.coverImage == Some(OrStr(rp.coverImage, ""))
    ensures r.position == Some(Coalesce(rp.position, 0))
    ensures r.deleted_at.None? && r.coverUrl.None?
    ensures r.tracks.Some? && |r.tracks.value| == (if rp.tracks.Some? then |rp.tracks.value| else 0)
    ensures forall i :: 0 <= i < |r.tracks.value| ==> r.tracks.value[i] == MapTrack(rp.tracks.value[i])
  {
    Playlist(rp.id, rp.name, Some(OrStr(rp.description, "")), Some(OrStr(rp.coverImage, "")), None,
             Some(Coalesce(rp.position, 0)), rp.updated_at, None,
             Some(MapTracks(if rp.tracks.Some? then rp.tracks.value else [])))
  }

  /** A position of 0 survives `mapPlaylist`; only a missing one becomes 0. */
  lemma ZeroPositionKept(rp: Playlist)
    requires rp.position == Some(0)
    ensures MapPlaylist(rp).position == Some(0)
  {
  }

  /** `mapPlaylist` is idempotent, because `mapTrack` is. */
  lemma {:induction false} MapPlaylistIdempotent(rp: Playlist)
    ensures MapPlaylist(MapPlaylist(rp)) == MapPlaylist(rp)
  {
    var once := MapPlaylist(rp).tracks.value;
    var twice := MapPlaylist(MapPlaylist(rp)).tracks.value;
    forall i | 0 <= i < |once| ensures twice[i] == once[i] {
      MapTrackIdempotent(rp.tracks.value[i]);
    }
    assert twice == once;
  }

  /** `mapLikedSong`: the mapped track plus `liked_at`. */
  function MapLikedSong(rs: Track): (r: Track)
    ensures r.liked_at == rs.liked_at
    ensures r.(liked_at := None) == MapTrack(rs)
  {
    MapTrack(rs).(liked_at := rs.liked_at)
  }

  /** `mapHistoryEntry`: the mapped track plus `played_at`. */
  function MapHistoryEntry(h: Track): (r: Track)
    ensures r.played_at == h.played_at
    ensures r.(played_at := None) == MapTrack(h)
  {
    MapTrack(h).(played_at := h.played_at)
  }
}
