/** The last-write-wins merge of the library pulled from the sync server into
    the local library: playlists and liked songs keyed by id in JavaScript
    `Map`s (insertion-ordered), history deduplicated by id. Timestamps are
    compared as strings, which orders RFC 3339 timestamps of one format
    chronologically. */
module SyncMerge {
  import opened JsValues
  import opened FieldMapping

  /** A `Map` key: an id, possibly `undefined`. */
  type Key = Option<string>

  // ─── A JavaScript `Map`: keys in insertion order plus the stored values ───

  datatype OMap<V> = OMap(keys: seq<Key>, vals: map<Key, V>)

  predicate Distinct(keys: seq<Key>) {
    forall i, j :: 0 <= i < j < |keys| ==> keys[i] != keys[j]
  }

  ghost predicate ValidMap<V>(m: OMap<V>) {
    Distinct(m.keys) && forall k :: k in m.vals <==> k in m.keys
  }

  function EmptyMap<V>(): (m: OMap<V>)
    ensures ValidMap(m) && m.keys == []
  {
    OMap([], map[])
  }

  /** `map.get(k)`. */
  function Get<V>(m: OMap<V>, k: Key): Option<V> {
    if k in m.vals then Some(m.vals[k]) else None
  }

  /** `map.set(k, v)`: a known key keeps its position, a new key goes last. */
  function Set<V>(m: OMap<V>, k: Key, v: V): (r: OMap<V>)
    ensures ValidMap(m) ==> ValidMap(r)
    ensures Get(r, k) == Some(v)
    ensures forall k' :: k' != k ==> Get(r, k') == Get(m, k')
    ensures r.keys == if k in m.vals then m.keys else m.keys + [k]
  {
    if k in m.vals then OMap(m.keys, m.vals[k := v]) else OMap(m.keys + [k], m.vals[k := v])
  }

  /** The key list without `k`: the other keys keep their order. */
  function RemoveKey(keys: seq<Key>, k: Key): (r: seq<Key>)
    ensures forall x :: x in r <==> x in keys && x != k
    ensures Distinct(keys) ==> Distinct(r)
    ensures k !in keys ==> r == keys
    ensures Distinct(keys) && k in keys ==>
      exists i :: 0 <= i < |keys| && keys[i] == k && r == keys[..i] + keys[i+1..]
    decreases |keys|
  {
    if keys == [] then []
    else if keys[0] == k then RemoveKey(keys[1..], k)
    else
      var rest := RemoveKey(keys[1..], k);
      assert Distinct(keys) ==> keys[0] !in keys[1..];
      [keys[0]] + rest
  }

  /** `map.delete(k)`. */
  function Delete<V>(m: OMap<V>, k: Key): (r: OMap<V>)
    ensures ValidMap(m) ==> ValidMap(r)
    ensures Get(r, k).None?
    ensures forall k' :: k' != k ==> Get(r, k') == Get(m, k')
    ensures r.keys == RemoveKey(m.keys, k)
  {
    OMap(RemoveKey(m.keys, k), m.vals - {k})
  }

  /** `[...map.values()]`. */
  function Values<V>(m: OMap<V>): (vs: seq<V>)
    requires ValidMap(m)
    ensures |vs| == |m.keys|
    ensures forall i :: 0 <= i < |vs| ==> vs[i] == m.vals[m.keys[i]]
  {
    seq(|m.keys|, i requires 0 <= i < |m.keys| => m.vals[m.keys[i]])
  }

  // ─── The three inputs and the result ───

  datatype Local = Local(playlists: Option<seq<Playlist>>, likedSongs: Option<seq<Track>>,
                         recentTracks: Option<seq<Track>>)

  datatype Remote = Remote(playlists: Option<seq<Playlist>>, likedSongs: Option<seq<Track>>,
                           history: Option<seq<Track>>)

  datatype Merged = Merged(playlists: seq<Playlist>, likedSongs: seq<Track>, recentTracks: seq<Track>)

  function OrEmpty<T>(xs: Option<seq<T>>): seq<T> {
    if xs.Some? then xs.value else []
  }

  // ─── Playlists ───

  /** `new Map(playlists.map(p => [p.id, p]))`: a repeated id keeps its first position and its last value. */
  function PlaylistIndex(ps: seq<Playlist>): (m: OMap<Playlist>)
    ensures ValidMap(m)
    decreases |ps|
  {
    if ps == [] then EmptyMap()
    else Set(PlaylistIndex(ps[..|ps| - 1]), ps[|ps| - 1].id, ps[|ps| - 1])
  }

  /** One step of building the index: the last playlist's id now holds it, and every other id
      holds what it held before. */
  lemma PlaylistIndexStep(ps: seq<Playlist>, k: Key)
    requires ps != []
    ensures Get(PlaylistIndex(ps), k) ==
      if k == ps[|ps| - 1].id then Some(ps[|ps| - 1]) else Get(PlaylistIndex(ps[..|ps| - 1]), k)
  {
  }

  /** Whether a remote playlist replaces the current entry: no entry, or a non-empty remote
      `updated_at` that is strictly greater, as a string, than the local one (or `''`). */
  predicate PlaylistWins(lp: Option<Playlist>, rp: Playlist) {
    lp.None? || (Truthy(rp.updated_at) && StrLess(OrStr(lp.value.updated_at, ""), rp.updated_at.value))
  }

  /** One iteration over the remote playlists. */
  function PlaylistStep(m: OMap<Playlist>, rp: Playlist): (r: OMap<Playlist>)
    ensures ValidMap(m) ==> ValidMap(r)
  {
    if PlaylistWins(Get(m, rp.id), rp) then Set(m, rp.id, MapPlaylist(rp)) else m
  }

  /** The playlist map after the remote playlists, in order. */
  function MergePlaylists(m: OMap<Playlist>, rps: seq<Playlist>): (r: OMap<Playlist>)
    ensures ValidMap(m) ==> ValidMap(r)
    decreases |rps|
  {
    if rps == [] then m else PlaylistStep(MergePlaylists(m, rps[..|rps| - 1]), rps[|rps| - 1])
  }

  /** The final filter: entries with a truthy `deleted_at` are dropped. */
  function LivePlaylists(ps: seq<Playlist>): (r: seq<Playlist>)
    ensures forall p :: p in r <==> p in ps && !Truthy(p.deleted_at)
    ensures |r| <= |ps|
    decreases |ps|
  {
    if ps == [] then []
    else (if Truthy(ps[0].deleted_at) then [] else [ps[0]]) + LivePlaylists(ps[1..])
  }

  /** A single playlist survives the filter exactly when it has no truthy `deleted_at`. */
  lemma LivePlaylistsOfOne(p: Playlist)
    ensures LivePlaylists([p]) == if Truthy(p.deleted_at) then [] else [p]
  {
    assert [p][1..] == [];
  }

  /** The filter of two joined lists is the filter of the first followed by the filter of
      the second; with `LivePlaylistsOfOne` this fixes the order and keeps repeated entries. */
  lemma {:induction false} LivePlaylistsKeepsOrder(a: seq<Playlist>, b: seq<Playlist>)
    ensures LivePlaylists(a + b) == LivePlaylists(a) + LivePlaylists(b)
    decreases |a|
  {
    if a == [] {
      assert a + b == b;
    } else {
      assert (a + b)[0] == a[0] && (a + b)[1..] == a[1..] + b;
      LivePlaylistsKeepsOrder(a[1..], b);
    }
  }

  /** A remote playlist replaces the entry for its id exactly when it wins; every other
      id keeps its entry. */
  lemma PlaylistStepEffect(m: OMap<Playlist>, rp: Playlist)
    ensures Get(PlaylistStep(m, rp), rp.id) ==
      (if PlaylistWins(Get(m, rp.id), rp) then Some(MapPlaylist(rp)) else Get(m, rp.id))
    ensures forall k :: k != rp.id ==> Get(PlaylistStep(m, rp), k) == Get(m, k)
  {
  }

  /** Equal timestamps keep the local entry, and so does a remote without `updated_at`. */
  lemma TieKeepsLocal(m: OMap<Playlist>, rp: Playlist)
    requires Get(m, rp.id).Some?
    requires Get(m, rp.id).value.updated_at == rp.updated_at || !Truthy(rp.updated_at)
    ensures PlaylistStep(m, rp) == m
  {
    if Truthy(rp.updated_at) {
      StrLessIrreflexive(rp.updated_at.value);
    }
  }

  /** A remote entry older than the local one keeps the local entry, and one newer replaces it. */
  lemma NewerRemoteWins(lp: Playlist, rp: Playlist)
    requires Truthy(lp.updated_at) && Truthy(rp.updated_at)
    ensures StrLess(rp.updated_at.value, lp.updated_at.value) ==> !PlaylistWins(Some(lp), rp)
    ensures StrLess(lp.updated_at.value, rp.updated_at.value) ==> PlaylistWins(Some(lp), rp)
  {
    StrLessAsymmetric(rp.updated_at.value, lp.updated_at.value);
  }

  /** The ids of `rps` not in `known`, first occurrences only, in remote order. */
  function NewIds(known: seq<Key>, rps: seq<Playlist>): (r: seq<Key>)
    ensures forall k :: k in r ==> k !in known
    decreases |rps|
  {
    if rps == [] then []
    else
      var prev := NewIds(known, rps[..|rps| - 1]);
      var k := rps[|rps| - 1].id;
      if k in known || k in prev then prev else prev + [k]
  }

  /** The merged playlist map lists the local ids in local order, then the previously
      unknown remote ids in the order they first appear remotely. */
  lemma {:induction false} MergedPlaylistOrder(m: OMap<Playlist>, rps: seq<Playlist>)
    requires ValidMap(m)
    ensures MergePlaylists(m, rps).keys == m.keys + NewIds(m.keys, rps)
    decreases |rps|
  {
    if rps != [] {
      var init := rps[..|rps| - 1];
      MergedPlaylistOrder(m, init);
      var prev := MergePlaylists(m, init);
      var k := rps[|rps| - 1].id;
      assert k in prev.vals <==> k in m.keys || k in NewIds(m.keys, init);
    }
  }

  /** Remote playlists pass through `mapPlaylist`, which drops `deleted_at`: a remote deletion
      that wins leaves a live playlist under its id instead of removing it. */
  lemma {:induction false} RemoteTombstoneKeepsPlaylist(m: OMap<Playlist>, rp: Playlist)
    requires ValidMap(m) && Truthy(rp.deleted_at) && PlaylistWins(Get(m, rp.id), rp)
    ensures MapPlaylist(rp) in LivePlaylists(Values(PlaylistStep(m, rp)))
  {
    var r := PlaylistStep(m, rp);
    assert rp.id in r.keys;
    var i :| 0 <= i < |r.keys| && r.keys[i] == rp.id;
    assert Values(r)[i] == MapPlaylist(rp);
  }

  // ─── Liked songs ───

  /** `new Map(likedSongs.map(s => [s.id, s]))`. */
  function LikedIndex(ss: seq<Track>): (m: OMap<Track>)
    ensures ValidMap(m)
    decreases |ss|
  {
    if ss == [] then EmptyMap()
    else Set(LikedIndex(ss[..|ss| - 1]), ss[|ss| - 1].id, ss[|ss| - 1])
  }

  /** The key of a remote liked song: `track_id || id`. */
  function LikedKey(rs: Track): Key {
    Or(rs.track_id, rs.id)
  }

  predicate LikedWins(ls: Option<Track>, rs: Track) {
    ls.None? || (Truthy(rs.liked_at) && StrLess(OrStr(ls.value.liked_at, ""), rs.liked_at.value))
  }

  /** One iteration over the remote liked songs: a winning tombstone deletes, any other win stores. */
  function LikedStep(m: OMap<Track>, rs: Track): (r: OMap<Track>)
    ensures ValidMap(m) ==> ValidMap(r)
  {
    var key := LikedKey(rs);
    if LikedWins(Get(m, key), rs) then
      if Truthy(rs.deleted_at) then Delete(m, key) else Set(m, key, MapLikedSong(rs))
    else m
  }

  function MergeLiked(m: OMap<Track>, rss: seq<Track>): (r: OMap<Track>)
    ensures ValidMap(m) ==> ValidMap(r)
    decreases |rss|
  {
    if rss == [] then m else LikedStep(MergeLiked(m, rss[..|rss| - 1]), rss[|rss| - 1])
  }

  /** A winning remote entry deletes the key when it carries `deleted_at` and stores the mapped
      song otherwise; a losing one changes nothing; other keys are untouched. */
  lemma LikedStepEffect(m: OMap<Track>, rs: Track)
    ensures LikedWins(Get(m, LikedKey(rs)), rs) && Truthy(rs.deleted_at) ==>
      Get(LikedStep(m, rs), LikedKey(rs)).None?
    ensures LikedWins(Get(m, LikedKey(rs)), rs) && !Truthy(rs.deleted_at) ==>
      Get(LikedStep(m, rs), LikedKey(rs)) == Some(MapLikedSong(rs))
    ensures !LikedWins(Get(m, LikedKey(rs)), rs) ==> LikedStep(m, rs) == m
    ensures forall k :: k != LikedKey(rs) ==> Get(LikedStep(m, rs), k) == Get(m, k)
  {
  }

  /** A remote liked entry without `liked_at` never overrides an existing entry, even a tombstone. */
  lemma UndatedLikeNeverOverrides(m: OMap<Track>, rs: Track)
    requires Get(m, LikedKey(rs)).Some? && !Truthy(rs.liked_at)
    ensures LikedStep(m, rs) == m
  {
  }

  // ─── History ───

  /** The ids of the local history. */
  function HistoryIds(hs: seq<Track>): (ids: set<Key>)
    ensures forall k :: k in ids <==> exists h :: h in hs && h.id == k
  {
    set h | h in hs :: h.id
  }

  /** The remote history entries whose `track_id || id` is not a local id, mapped: the
      `filter` and then the `map`. */
  function NewHistory(ids: set<Key>, remote: seq<Track>): seq<Track>
    decreases |remote|
  {
    if remote == [] then []
    else if LikedKey(remote[0]) in ids then NewHistory(ids, remote[1..])
    else [MapHistoryEntry(remote[0])] + NewHistory(ids, remote[1..])
  }

  /** The new entries are exactly the mapped remote entries whose key is not local, and there
      are no more of them than remote entries. */
  lemma {:induction false} NewHistoryMembers(ids: set<Key>, remote: seq<Track>)
    ensures |NewHistory(ids, remote)| <= |remote|
    ensures forall e :: e in NewHistory(ids, remote) ==>
      exists h :: h in remote && LikedKey(h) !in ids && e == MapHistoryEntry(h)
    ensures forall h :: h in remote && LikedKey(h) !in ids ==> MapHistoryEntry(h) in NewHistory(ids, remote)
    decreases |remote|
  {
    if remote != [] {
      NewHistoryMembers(ids, remote[1..]);
      assert forall h :: h in remote <==> h == remote[0] || h in remote[1..];
    }
  }

  /** The new entries of one remote entry: itself mapped, or nothing when its key is local. */
  lemma NewHistoryOfOne(ids: set<Key>, h: Track)
    ensures NewHistory(ids, [h]) == (if LikedKey(h) in ids then [] else [MapHistoryEntry(h)])
  {
    assert [h][1..] == [];
  }

  /** The new entries keep the remote order and every duplicate: the entries of a
      concatenation are those of each part, in order. */
  lemma {:induction false} NewHistoryKeepsOrder(ids: set<Key>, a: seq<Track>, b: seq<Track>)
    ensures NewHistory(ids, a + b) == NewHistory(ids, a) + NewHistory(ids, b)
    decreases |a|
  {
    if |a| == 0 {
      assert a + b == b;
    } else {
      assert (a + b)[0] == a[0] && (a + b)[1..] == a[1..] + b;
      NewHistoryKeepsOrder(ids, a[1..], b);
    }
  }

  /** The merged history as the code evidently intends it: new remote entries first, then the
      local history, a missing local history counting as empty. */
  function History(localRecent: Option<seq<Track>>, remoteHistory: Option<seq<Track>>): (h: seq<Track>)
    ensures |OrEmpty(localRecent)| <= |h| <= |OrEmpty(localRecent)| + |OrEmpty(remoteHistory)|
    ensures h[|h| - |OrEmpty(localRecent)|..] == OrEmpty(localRecent)
  {
    NewHistoryMembers(HistoryIds(OrEmpty(localRecent)), OrEmpty(remoteHistory));
    NewHistory(HistoryIds(OrEmpty(localRecent)), OrEmpty(remoteHistory)) + OrEmpty(localRecent)
  }

  /** History keeps every local entry unchanged and in order after the new entries, and no new
      entry repeats a local id. */
  lemma {:induction false} HistoryShape(localRecent: seq<Track>, remoteHistory: Option<seq<Track>>)
    ensures var h := History(Some(localRecent), remoteHistory);
      var n := |h| - |localRecent|;
      0 <= n <= |OrEmpty(remoteHistory)| && h[n..] == localRecent &&
      forall i :: 0 <= i < n ==> h[i].id !in HistoryIds(localRecent)
  {
    var ids := HistoryIds(localRecent);
    var newEntries := NewHistory(ids, OrEmpty(remoteHistory));
    NewHistoryMembers(ids, OrEmpty(remoteHistory));
    var h := History(Some(localRecent), remoteHistory);
    assert h == newEntries + localRecent;
    forall i | 0 <= i < |newEntries| ensures h[i].id !in ids {
      assert h[i] in newEntries;
      var src :| src in OrEmpty(remoteHistory) && LikedKey(src) !in ids && h[i] == MapHistoryEntry(src);
    }
  }

  // ─── The merge ───

  /** The merge result (with the history as intended). */
  function Merge(local: Local, remote: Remote): (m: Merged)
    ensures forall p :: p in m.playlists ==> !Truthy(p.deleted_at)
    ensures |OrEmpty(local.recentTracks)| <= |m.recentTracks|
    ensures m.recentTracks[|m.recentTracks| - |OrEmpty(local.recentTracks)|..] == OrEmpty(local.recentTracks)
  {
    Merged(
      LivePlaylists(Values(MergePlaylists(PlaylistIndex(OrEmpty(local.playlists)), OrEmpty(remote.playlists)))),
      Values(MergeLiked(LikedIndex(OrEmpty(local.likedSongs)), OrEmpty(remote.likedSongs))),
      History(local.recentTracks, remote.history))
  }

  /** `syncMerge` as written: spreading a missing `local.recentTracks` throws a TypeError. */
  function SyncMergeAsWritten(local: Local, remote: Remote): (r: Result<Merged, string>)
    ensures r.Err? <==> local.recentTracks.None?
    ensures r.Ok? ==> r.value == Merge(local, remote)
  {
    if local.recentTracks.None? then Err("TypeError") else Ok(Merge(local, remote))
  }

  /** Two empty objects make `syncMerge` throw rather than return three empty lists. */
  lemma EmptyInputsThrow()
    ensures SyncMergeAsWritten(Local(None, None, None), Remote(None, None, None)) == Err("TypeError")
  {
  }

  /** With the missing history read as empty, two empty objects merge to three empty lists. */
  lemma {:induction false} EmptyInputsMergeToEmpty()
    ensures Merge(Local(None, None, None), Remote(None, None, None)) == Merged([], [], [])
  {
    assert PlaylistIndex([]).keys == [];
    assert LikedIndex([]).keys == [];
  }

  /** Building the local playlist map, one `set` per entry. */
  method IndexPlaylists(lps: seq<Playlist>) returns (m: OMap<Playlist>)
    ensures m == PlaylistIndex(lps)
  {
    m := EmptyMap();
    for i := 0 to |lps|
      invariant m == PlaylistIndex(lps[..i])
    {
      assert lps[..i + 1][..i] == lps[..i];
      m := Set(m, lps[i].id, lps[i]);
    }
    assert lps[..|lps|] == lps;
  }

  /** The loop over the remote playlists. */
  method MergeRemotePlaylists(m0: OMap<Playlist>, rps: seq<Playlist>) returns (m: OMap<Playlist>)
    requires ValidMap(m0)
    ensures m == MergePlaylists(m0, rps) && ValidMap(m)
  {
    m := m0;
    for j := 0 to |rps|
      invariant ValidMap(m)
      invariant m == MergePlaylists(m0, rps[..j])
    {
      assert rps[..j + 1][..j] == rps[..j];
      var rp := rps[j];
      var lp := Get(m, rp.id);
      if lp.None? || (Truthy(rp.updated_at) && StrLess(OrStr(lp.value.updated_at, ""), rp.updated_at.value)) {
        m := Set(m, rp.id, MapPlaylist(rp));
      }
    }
    assert rps[..|rps|] == rps;
  }

  /** Building the local liked-song map. */
  method IndexLiked(lss: seq<Track>) returns (m: OMap<Track>)
    ensures m == LikedIndex(lss)
  {
    m := EmptyMap();
    for i := 0 to |lss|
      invariant m == LikedIndex(lss[..i])
    {
      assert lss[..i + 1][..i] == lss[..i];
      m := Set(m, lss[i].id, lss[i]);
    }
    assert lss[..|lss|] == lss;
  }

  /** The loop over the remote liked songs. */
  method MergeRemoteLiked(m0: OMap<Track>, rss: seq<Track>) returns (m: OMap<Track>)
    requires ValidMap(m0)
    ensures m == MergeLiked(m0, rss) && ValidMap(m)
  {
    m := m0;
    for j := 0 to |rss|
      invariant ValidMap(m)
      invariant m == MergeLiked(m0, rss[..j])
    {
      assert rss[..j + 1][..j] == rss[..j];
      var rs := rss[j];
      var trackId := Or(rs.track_id, rs.id);
      var ls := Get(m, trackId);
      if ls.None? || (Truthy(rs.liked_at) && StrLess(OrStr(ls.value.liked_at, ""), rs.liked_at.value)) {
        if Truthy(rs.deleted_at) {
          m := Delete(m, trackId);
        } else {
          m := Set(m, trackId, MapLikedSong(rs));
        }
      }
    }
    assert rss[..|rss|] == rss;
  }

  /** `syncMerge`: the two map loops, then the filter and the history. */
  method SyncMergeRun(local: Local, remote: Remote) returns (r: Result<Merged, string>)
    ensures r == SyncMergeAsWritten(local, remote)
  {
    var playlistMap := IndexPlaylists(OrEmpty(local.playlists));
    playlistMap := MergeRemotePlaylists(playlistMap, OrEmpty(remote.playlists));
    var playlists := LivePlaylists(Values(playlistMap));
    var likedMap := IndexLiked(OrEmpty(local.likedSongs));
    likedMap := MergeRemoteLiked(likedMap, OrEmpty(remote.likedSongs));
    var likedSongs := Values(likedMap);
    var newHistory := NewHistory(HistoryIds(OrEmpty(local.recentTracks)), OrEmpty(remote.history));
    if local.recentTracks.None? {
      return Err("TypeError");
    }
    r := Ok(Merged(playlists, likedSongs, newHistory + local.recentTracks.value));
  }
}
