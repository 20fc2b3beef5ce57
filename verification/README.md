# Snowify core, modelled in Dafny

Snowify is a desktop (Electron) and mobile (Capacitor) music player that streams from YouTube Music, casts to Chromecast receivers, and syncs a user's library with a sync server. This project models the parts of it that make decisions, and proves properties of those models:

- the main process's Cast service: the device registry kept by mDNS discovery, connecting to and controlling a receiver, and the normalisation of receiver status;
- the cast proxy that relays the audio stream to the receiver;
- the library merge done by sync, the field mapping between server and client records, and the push/pull of sync;
- the retry helper and the YouTube Music client start-up that uses it;
- the sync-server API clients of the desktop app and of the mobile adapter, with their token handling;
- the renderer's request de-duplication, release cache, playback watchdog and playback-error handler;
- the renderer's cast hook, shared UI signals, navigation callbacks, playlist context menu, track list and Spotify import list;
- the main-process playlist-cover handlers;
- the mobile app's audio-focus handler and its Android APK updater.

Each source file is one Dafny module in a file of its own.
- Code that updates state in place becomes a class. Its methods carry `modifies` frames, and their `ensures` tie the new state to specification functions.
- Pure code becomes functions, and lemmas relate them.
- Network, timers, file systems, dialogs and other platform calls are replaced by parameters that stand for their outcomes. Calls the code makes on them are recorded in sequences.

JavaScript values:
- `undefined` and `null` are `None` of an `Option`, except where the code tells them apart.
- Truthiness, `||`, `??` and template rendering are spelt out in the `JsValues` module.

## Model

| member | source | states |
|---|---|---|
| CastService.ServiceId | src/main/services/cast.js:22 | a device id is the TXT `id` when truthy, else `<name>-<port>` |
| CastService.ServiceHost | src/main/services/cast.js:23-24 | the host is `referer.address`, else the first address; there is none exactly when both are missing or empty |
| CastService.NewDevice | src/main/services/cast.js:32-38 | a new device keeps the id and host, is named by `fn`, then `name`, then "Chromecast", uses port 8009 when the announced port is missing or 0, and is seen now |
| CastService.AnnounceKnownRefreshes | src/main/services/cast.js:26-30 | announcing a known id refreshes only that entry's `lastSeen` and sends no devices event |
| CastService.Announce | src/main/services/cast.js:21-43 | a devices event is sent exactly when the service has an address and its id is new; a new device is appended after the unchanged registry, and every existing entry keeps its id |
| CastService.AnnounceNewOrDropped | src/main/services/cast.js:24-42 | an announcement without a host changes nothing; a new id is appended and one event is sent |
| CastService.AnnouncePreservesUnique | src/main/services/cast.js:21-43 | announcements keep registry ids unique |
| CastService.RepeatedAnnouncements | src/main/services/cast.js:21-43 | announcing one service any number of times leaves exactly one entry for it, seen at the last time |
| CastService.AnnouncePreservesUniqueAll | src/main/services/cast.js:21-43 | any run of announcements keeps ids unique |
| CastService.Prune | src/main/services/cast.js:47 | the sweep keeps exactly the devices seen less than 60 s ago, never more devices than before |
| CastService.PruneOfOne | src/main/services/cast.js:47 | a single device survives the sweep exactly when it is fresh |
| CastService.PruneKeepsOrder | src/main/services/cast.js:47 | sweeping two joined lists gives the sweep of the first followed by that of the second, so the survivors keep their order and their repeats |
| CastService.PruneShrinksIffStale | src/main/services/cast.js:46-48 | the sweep shrinks the registry, and so emits, exactly when some device is stale |
| CastService.PrunePreservesUnique | src/main/services/cast.js:45-49 | the sweep keeps ids unique |
| CastService.Snapshot | src/main/services/cast.js:85-94 | the list sent out has one `{name, host, port, id}` per device, in order |
| CastService.FindDevice | src/main/services/cast.js:117 | the search returns an index holding the id, the first such, or nothing when no device has the id |
| CastService.Normalize | src/main/services/cast.js:294-299 | the pushed status defaults the state to IDLE and the times to 0, and takes the volume level with `??`, so a volume of 0 is kept |
| CastService.MutedVolumeIsKept | src/main/services/cast.js:298 | a reported volume of 0 stays 0 |
| CastService.ClampVolume | src/main/services/cast.js:237 | the volume sent lies in [0, 1], equals the level inside that range, and is the nearest bound outside it |
| CastService.MediaFor | src/main/services/cast.js:186-199 | the load request carries the proxy URL as an audio/webm buffered stream with autoplay, the title or "Unknown", the artist or "", and one image exactly when there is a thumbnail |
| CastService.Cast.constructor | src/main/services/cast.js:9-17 | the service starts with no devices, browse, timer, client, player, device, poll or window |
| CastService.Cast.SetMainWindow | src/main/services/cast.js:111-113 | setting the window changes no other field |
| CastService.Cast.EmitDevices | src/main/services/cast.js:88-96 | the device snapshot is pushed only when a window is set |
| CastService.Cast.AddOrUpdateDevice | src/main/services/cast.js:21-43 | the registry becomes `Announce` of the old one, an event is pushed when a device was added, and ids stay unique |
| CastService.Cast.PruneStaleDevices | src/main/services/cast.js:45-49 | the registry becomes `Prune` of the old one, and an event is pushed only if it shrank |
| CastService.Cast.StartBrowse | src/main/services/cast.js:51-55 | a browse is started only when none is running |
| CastService.Cast.StopBrowse | src/main/services/cast.js:57-66 | afterwards no browse runs |
| CastService.Cast.StartBackgroundScan | src/main/services/cast.js:69-78 | a second call does nothing; the first starts the browse (counted only when none was running) and the timer |
| CastService.Cast.BackgroundTick | src/main/services/cast.js:72-77 | a timer tick sweeps the registry, pushes the devices event exactly when the sweep shrank it and a window exists, and restarts the browse once |
| CastService.Cast.StartDiscovery | src/main/services/cast.js:81-86 | discovery restarts the browse and returns the current snapshot |
| CastService.Cast.StopDiscovery | src/main/services/cast.js:98-103 | afterwards a browse runs exactly when the background scan is on, and one new browse is started exactly then |
| CastService.Cast.DisconnectSync | src/main/services/cast.js:159-178 | polling stops, an active player is sent STOP, the client is closed, both are dropped, and no device stays connected |
| CastService.Cast.Disconnect | src/main/services/cast.js:154-157 | the same teardown as `disconnectSync`, STOP to an active player included |
| CastService.Cast.ConnectToDevice | src/main/services/cast.js:115-152 | an unknown id is rejected before any teardown, leaving the session as it was; otherwise the old client is closed and a new one opened; an active player is sent STOP first; a launched receiver resolves with the device's name and host and starts polling, with a player that has no media session yet, and the session counts as connected exactly when this happens; a launch failure rejects with the new client still open and `connectedDevice` (what `getConnectedDevice` returns) set, but without a player, so the session is not connected; a connection that never completes leaves the call pending; browsing, background scanning and the window are untouched (also lines 260-266) |
| CastService.Cast.LoadMedia | src/main/services/cast.js:182-207 | without a player the load is rejected; otherwise the request from `MediaFor` is sent and the receiver's reply returned; an answered load gives the player its media session, so play, pause and seek go out afterwards; a failed load leaves the player as it was |
| CastService.Cast.MediaCommand | src/main/services/cast.js:209-232 | play, pause and seek resolve false without a media session, which a launch alone does not open; otherwise they send the command and resolve true or reject with the error |
| CastService.Cast.SetVolume | src/main/services/cast.js:234-241 | without a client the call is rejected; otherwise the clamped level is sent |
| CastService.Cast.Stop | src/main/services/cast.js:243-248 | without a player the call is rejected; otherwise stop is sent |
| CastService.Cast.GetStatus | src/main/services/cast.js:250-258 | without a player the status is null; otherwise it is the receiver's reply |
| CastService.Cast.EmitStatus | src/main/services/cast.js:289-300 | the normalised status is pushed only with a window and a status |
| CastService.Cast.PollTick | src/main/services/cast.js:272-279 | a poll sends one GET_STATUS when there is a player, and pushes the status when there is also a reply and a window; errors are swallowed |
| CastProxy.FirstExternalIn | src/main/services/castProxy.js:14-18 | within one interface group, the first external IPv4 address is found, and none exactly when the group has no external IPv4 interface |
| CastProxy.LocalIPIsFirstExternal | src/main/services/castProxy.js:11-21 | the local address is the first external IPv4 address over all groups in order, and 127.0.0.1 exactly when there is none |
| CastProxy.LocalIP | src/main/services/castProxy.js:11-21 | the advertised address is 127.0.0.1 or the address of some external IPv4 interface |
| CastProxy.GetLocalIP | src/main/services/castProxy.js:11-21 | the nested loop returns `LocalIP` |
| CastProxy.UpstreamHeaders | src/main/services/castProxy.js:41-49 | the forwarded headers are exactly the fixed User-Agent and, when the client sent one, its Range header with the same value |
| CastProxy.ResponseHeaders | src/main/services/castProxy.js:58-69 | the reply headers are exactly the upstream content type or audio/webm, byte ranges, open CORS, and the length and range when upstream sent them, with their values |
| CastProxy.Proxy.constructor | src/main/services/castProxy.js:7-9 | the relay starts with no server, no stream and port 0 |
| CastProxy.Proxy.ProxyUrl | src/main/services/castProxy.js:114-117 | the relay URL is `http://<local ip>:<port>/stream` while a server runs, and null otherwise |
| CastProxy.Proxy.StartProxy | src/main/services/castProxy.js:23-98 | a running relay only swaps the stream and answers its URL; otherwise it listens and answers the new URL, or rejects with the bind error and keeps port 0 |
| CastProxy.Proxy.StopProxy | src/main/services/castProxy.js:100-108 | stopping a running relay clears the server, the stream and the port; stopping a stopped one changes nothing |
| CastProxy.Proxy.UpdateStreamUrl | src/main/services/castProxy.js:110-112 | only the stream URL changes |
| CastProxy.Proxy.HandleRequest | src/main/services/castProxy.js:33-85 | other paths or no stream get 404 and no upstream request; `/stream` is forwarded to the current stream with the forwarded headers, the upstream status and headers are mirrored and the body piped (the forwarded and reply headers exactly as in `UpstreamHeaders` and `ResponseHeaders`), an upstream error before the response gives 502, and a client close destroys the upstream request |
| SyncService.PositionedTracks | src/main/services/sync.js:30 | each pushed track carries its index as `position`, in order |
| SyncService.PushPlaylistOf | src/main/services/sync.js:24-33 | a pushed playlist keeps id and name, defaults description and cover URL to "", the position to 0 only when missing, `updated_at` to now, and `deleted_at` to null, with one track per track |
| SyncService.LikedForPush | src/main/services/sync.js:34-36 | each liked song is pushed with its `liked_at`, or now when missing |
| SyncService.HistoryForPush | src/main/services/sync.js:37-39 | each history entry is pushed with its `played_at`, or now when missing |
| SyncService.SyncPush | src/main/services/sync.js:20-47 | an unauthenticated push throws "Not authenticated"; otherwise the payload has one entry per local playlist, liked song and history entry, in order, each built from its local entry: playlist tracks with their positions, liked songs and history with their times, defaulting to now, and the settings as given |
| SyncService.PushedTrackPositions | src/main/services/sync.js:30 | track `i` of pushed playlist `k` is the local track `i` with position `i` |
| SyncService.EmptyStatePushesEmptyLists | src/main/services/sync.js:24-40 | an empty local state pushes three empty lists and no settings |
| SyncService.CoverDoesNotRoundTrip | src/main/services/sync.js:28 | a cover pulled through `mapPlaylist` lands in `coverImage` and is pushed back as an empty `coverUrl` |
| SyncService.SyncState.constructor | src/main/services/sync.js:6 | the last sync time starts null |
| SyncService.SyncState.GetLastSyncAt | src/main/services/sync.js:8-10 | the getter returns the stored time |
| SyncService.SyncState.SetLastSyncAt | src/main/services/sync.js:12-14 | the setter stores the time |
| SyncService.SyncState.Since | src/main/services/sync.js:56 | the `since` parameter is the stored time when truthy, and otherwise the epoch `1970-01-01T00:00:00Z` |
| SyncService.SyncState.SyncPull | src/main/services/sync.js:53-61 | an unauthenticated pull throws before any request; otherwise it asks from `Since()`, stores the server's `syncTimestamp` on success and keeps the old time on failure |
| Retry.Delay | src/main/utils/retry.js:18 | the wait before retry `i` is `delays[i]`, else the last delay, and undefined only for an empty table |
| Retry.WithRetry | src/main/utils/retry.js:11-24 | attempts run 0, 1, … up to `maxRetries`; the first success is returned; after `maxRetries` failures the last error is thrown; `onError` sees every failure with its attempt; a wait comes between attempts; no attempt at all returns undefined |
| Retry.DelayTable | src/main/utils/retry.js:8-18 | the default waits are 1 s, 3 s, then 8 s for every later retry |
| FieldMapping.ArtistsOf | src/shared/fieldMapping.js:14 | the artists are `t.artists` when present, else the parsed `artists_json` when truthy, else an empty list |
| FieldMapping.MapTrack | src/shared/fieldMapping.js:8-22 | the client track takes its id from `track_id` then `id`, the artist and album ids and the duration in ms from the snake-case field then the camel-case one, copies the plain fields, and has exactly the client keys |
| FieldMapping.MapTrackPassthrough | src/shared/fieldMapping.js:6-22 | a track already in client form maps to itself |
| FieldMapping.MapTrackIdempotent | src/shared/fieldMapping.js:8-22 | mapping twice gives what mapping once gives |
| FieldMapping.MapTrackDropsOtherKeys | src/shared/fieldMapping.js:9-21 | timestamps and tombstones of the input do not affect the mapped track |
| FieldMapping.MapTracks | src/shared/fieldMapping.js:36 | the tracks are mapped one by one, in order |
| FieldMapping.MapPlaylist | src/shared/fieldMapping.js:28-38 | the client playlist keeps the id, name and `updated_at`, defaults description and cover to "", the position to 0 only when missing, has no `deleted_at`, and maps every track in order |
| FieldMapping.ZeroPositionKept | src/shared/fieldMapping.js:34 | a position of 0 stays 0 (`??`, not `\|\|`) |
| FieldMapping.MapPlaylistIdempotent | src/shared/fieldMapping.js:28-38 | mapping a playlist twice gives what mapping once gives |
| FieldMapping.MapLikedSong | src/shared/fieldMapping.js:43-48 | a liked song is the mapped track plus the input's `liked_at` |
| FieldMapping.MapHistoryEntry | src/shared/fieldMapping.js:53-58 | a history entry is the mapped track plus the input's `played_at` |
| SyncMerge.EmptyMap | src/shared/syncMerge.js:9 | a new `Map` has no keys |
| SyncMerge.Set | src/shared/syncMerge.js:13 | `Map.set` stores the value under the key, leaves other keys, and appends the key only when it is new |
| SyncMerge.RemoveKey | src/shared/syncMerge.js:25 | an absent key leaves the key list as it is; a present key is cut out at its one position, so the other keys keep their order, and the list stays duplicate-free |
| SyncMerge.Delete | src/shared/syncMerge.js:25 | `Map.delete` removes the key, leaves the other entries, and keeps the others' insertion order as `RemoveKey` states, so `values()` after a remote tombstone keeps the local order |
| SyncMerge.Values | src/shared/syncMerge.js:16-31 | the spread of `values()` lists one value per key, in insertion order |
| SyncMerge.PlaylistIndex | src/shared/syncMerge.js:9 | the local playlist map is a well-formed map |
| SyncMerge.PlaylistIndexStep | src/shared/syncMerge.js:9 | adding the next local playlist makes its id hold that playlist and leaves every other id as it was |
| SyncMerge.PlaylistStep | src/shared/syncMerge.js:11-14 | one remote playlist keeps the map well formed |
| SyncMerge.MergePlaylists | src/shared/syncMerge.js:10-15 | the loop over remote playlists keeps the map well formed |
| SyncMerge.LivePlaylists | src/shared/syncMerge.js:16 | the result holds exactly the playlists without a truthy `deleted_at`, never more than the input |
| SyncMerge.LivePlaylistsOfOne | src/shared/syncMerge.js:16 | a single playlist survives exactly when it has no truthy `deleted_at` |
| SyncMerge.LivePlaylistsKeepsOrder | src/shared/syncMerge.js:16 | filtering two joined lists gives the filter of the first followed by that of the second, so the live playlists keep their order and their repeats |
| SyncMerge.PlaylistStepEffect | src/shared/syncMerge.js:11-14 | a remote playlist replaces its id's entry by its mapped form exactly when there is no local one or its `updated_at` is later; other ids are untouched |
| SyncMerge.TieKeepsLocal | src/shared/syncMerge.js:12 | an equal or missing remote `updated_at` keeps the local entry |
| SyncMerge.NewerRemoteWins | src/shared/syncMerge.js:12 | an older remote loses and a newer remote wins |
| SyncMerge.NewIds | src/shared/syncMerge.js:13 | the ids a merge appends are not local ids |
| SyncMerge.MergedPlaylistOrder | src/shared/syncMerge.js:9-16 | merged playlists come in local order, then new remote ids in the order they first appear |
| SyncMerge.RemoteTombstoneKeepsPlaylist | src/shared/syncMerge.js:13-16 | a winning remote playlist with `deleted_at` survives the filter, because `mapPlaylist` drops the field |
| SyncMerge.LikedIndex | src/shared/syncMerge.js:19 | the local liked map is a well-formed map |
| SyncMerge.LikedStep | src/shared/syncMerge.js:21-29 | one remote liked song keeps the map well formed |
| SyncMerge.MergeLiked | src/shared/syncMerge.js:20-30 | the loop over remote liked songs keeps the map well formed |
| SyncMerge.LikedStepEffect | src/shared/syncMerge.js:21-29 | a winning remote song deletes its key when it has `deleted_at` and stores its mapped form otherwise; a losing one changes nothing; other keys are untouched |
| SyncMerge.UndatedLikeNeverOverrides | src/shared/syncMerge.js:23 | a remote song without `liked_at` never overrides an existing entry |
| SyncMerge.HistoryIds | src/shared/syncMerge.js:34 | the id set holds exactly the local history's ids |
| SyncMerge.HistoryShape | src/shared/syncMerge.js:34-38 | the merged history ends with the local history unchanged, and no entry before it repeats a local id |
| SyncMerge.NewHistoryMembers | src/shared/syncMerge.js:35-37 | the new entries are mapped remote entries whose `track_id \|\| id` is not local, every such remote entry gives one, and there are at most as many as remote entries |
| SyncMerge.NewHistoryOfOne | src/shared/syncMerge.js:35-37 | a single remote entry gives its mapped entry when its id is not local, and nothing otherwise |
| SyncMerge.NewHistoryKeepsOrder | src/shared/syncMerge.js:35-37 | the new entries of two joined remote lists are the new entries of the first followed by those of the second, so remote order is kept |
| SyncMerge.History | src/shared/syncMerge.js:34-38 | the merged history ends with the local history unchanged, a missing one counting as empty, and adds at most one entry per remote entry |
| SyncMerge.Merge | src/shared/syncMerge.js:7-41 | the merged playlists hold no deleted playlist, and the merged history ends with the local history |
| SyncMerge.SyncMergeAsWritten | src/shared/syncMerge.js:7-41 | the merge throws exactly when the local history is missing, and otherwise returns the last-write-wins merge |
| SyncMerge.EmptyInputsThrow | src/shared/syncMerge.js:38 | two empty objects make the merge throw |
| SyncMerge.EmptyInputsMergeToEmpty | src/shared/syncMerge.js:9-38 | with a missing history read as empty, two empty objects merge to three empty lists |
| SyncMerge.IndexPlaylists | src/shared/syncMerge.js:9 | building the local playlist map gives `PlaylistIndex` |
| SyncMerge.MergeRemotePlaylists | src/shared/syncMerge.js:10-15 | the loop computes `MergePlaylists` |
| SyncMerge.IndexLiked | src/shared/syncMerge.js:19 | building the local liked map gives `LikedIndex` |
| SyncMerge.MergeRemoteLiked | src/shared/syncMerge.js:20-30 | the loop computes `MergeLiked` |
| SyncMerge.SyncMergeRun | src/shared/syncMerge.js:7-41 | running the merge gives `SyncMergeAsWritten` |
| YtMusic.Host.constructor | src/main/services/ytmusic.js:5 | no client is held at start |
| YtMusic.Host.InitYTMusic | src/main/services/ytmusic.js:7-26 | initialisation succeeds exactly when one of the first three attempts does, and then the client of the first successful attempt is kept; every failed attempt drops its client; waits of 1 s and 3 s come between attempts and none after the last; after three failures it throws with no client held |
| DesktopApi.StripTrailingSlash | src/main/services/api.js:10 | one trailing `/` is removed, and a URL without one is kept |
| DesktopApi.ApiHeaders | src/main/services/api.js:39-43 | the headers are the extras over a JSON content type, with X-API-Key set to the stored key exactly when it is non-empty, and no other key |
| DesktopApi.Api.constructor | src/main/services/api.js:3-7 | base URL, tokens and key start empty, with no callback |
| DesktopApi.Api.Configure | src/main/services/api.js:9-15 | a missing base URL throws and stores nothing; otherwise the URL loses one trailing `/`, missing tokens and key become "", and the callback is stored |
| DesktopApi.Api.GetTokens | src/main/services/api.js:17-19 | the getter returns both stored tokens |
| DesktopApi.Api.SetTokens | src/main/services/api.js:21-24 | both given values are stored |
| DesktopApi.Api.ClearTokens | src/main/services/api.js:26-29 | both tokens become "", so the client is not authenticated |
| DesktopApi.Api.RefreshAccessToken | src/main/services/api.js:45-62 | without a refresh token it throws and sends nothing; otherwise one POST goes to `/auth/refresh`; a refusal clears both tokens, a network failure keeps them, and a success stores the new pair and notifies the callback if one is set |
| DesktopApi.Api.RequestHeaders | src/main/services/api.js:67-68 | Authorization is `Bearer <token>` exactly when authenticated, besides what the extras carry |
| DesktopApi.Api.ApiFetch | src/main/services/api.js:64-89 | an unconfigured client throws before any request; otherwise at most three requests are sent; a 401 with a refresh token sends one refresh and one retry carrying the new token, and a failed refresh or a retry that does not reach the server is "Authentication expired"; the retried response then decides the result; a failing response gives the server's message or `API error <status>` |
| DesktopApi.Api.Logout | src/main/services/api.js:129-138 | a logout request goes out only with a refresh token, and both tokens end empty whatever it returns |
| MobileApi.ArgOrEmpty | mobile/src/api-adapter.js:140 | an argument that is not undefined is stored as given, and null as "" (also line 198) |
| MobileApi.Item | mobile/src/api-adapter.js:12-26 | a read gives the stored value, or "" for a missing key |
| MobileApi.Headers | mobile/src/api-adapter.js:38-43 | the headers are built as on the desktop, from the stored key, so X-API-Key is present exactly when the key is non-empty |
| MobileApi.RequestHeaders | mobile/src/api-adapter.js:66-68 | Authorization is `Bearer <token>` exactly when a token is stored, and the other headers are those of `Headers` |
| MobileApi.Cleared | mobile/src/api-adapter.js:33-36 | clearing removes exactly the two token keys and leaves every other entry |
| MobileApi.StateOf | mobile/src/api-adapter.js:185-189 | the state is configured exactly when the URL is non-empty, and authenticated exactly when the access token is non-empty, with both tokens as stored |
| MobileApi.SavedTouchesOnlyItsKeys | mobile/src/api-adapter.js:195-200 | saving writes a token only when it is truthy and the key only when it is not undefined, and leaves every other key |
| MobileApi.Saved | mobile/src/api-adapter.js:195-200 | saving adds exactly the access token when truthy, the refresh token when truthy and the key when not undefined, with the given values |
| MobileApi.Configured | mobile/src/api-adapter.js:138-142 | configuring writes the URL (an absent one as "undefined") and the key when not undefined, and keeps every other entry |
| MobileApi.SaveThenLoad | mobile/src/api-adapter.js:185-200 | saved tokens and key read back unchanged |
| MobileApi.ClearedIsSignedOut | mobile/src/api-adapter.js:33-36 | after clearing the client is signed out, still configured as before, and keeps its key (also lines 185-189) |
| MobileApi.ConfigureKeyArgument | mobile/src/api-adapter.js:138-142 | a null key empties the stored key, an undefined one keeps it, and the URL decides whether the client is configured |
| MobileApi.StreamUrlOf | mobile/src/api-adapter.js:122-129 | the stream URL uses the `v` parameter or the whole input as id, always has `quality=m4a`, and has `key` exactly when a key is stored; an unparsable URL throws |
| MobileApi.LoadRequestOf | mobile/src/api-adapter.js:236-249 | the load request is audio/mp4, buffered, autoplaying, starts at the given time or 0, has the title and artist or "", and has one image exactly when there is a thumbnail |
| MobileApi.MediaUpdateStatus | mobile/src/api-adapter.js:259-268 | the player state is passed through as reported |
| MobileApi.MediaUpdateMatchesDesktop | mobile/src/api-adapter.js:263-265 | the times and volume are normalised as on the desktop (defaults 0, 0 and `?? 1`), and so is a reported player state |
| MobileApi.Adapter.constructor | mobile/src/api-adapter.js:91-93 | the adapter starts on the given store, with no status callback and no listeners |
| MobileApi.Adapter.SetTokens | mobile/src/api-adapter.js:28-31 | both tokens are written as text |
| MobileApi.Adapter.ClearTokens | mobile/src/api-adapter.js:33-36 | the store becomes `Cleared` of the old one |
| MobileApi.Adapter.AuthConfigure | mobile/src/api-adapter.js:138-142 | the URL is always written, and the key only when it is not undefined |
| MobileApi.Adapter.AuthSaveTokens | mobile/src/api-adapter.js:195-200 | the store becomes `Saved` of the old one |
| MobileApi.Adapter.AuthGetState | mobile/src/api-adapter.js:185-189 | the state is `StateOf` the store |
| MobileApi.Adapter.AuthLogout | mobile/src/api-adapter.js:173-184 | a logout request goes out only with a refresh token, and the tokens are cleared in every case |
| MobileApi.Adapter.RefreshAccessToken | mobile/src/api-adapter.js:45-60 | without a refresh token it throws and sends nothing; a refusal clears the tokens with "Session expired"; a network failure keeps them; a success stores the new pair |
| MobileApi.Adapter.ApiFetch | mobile/src/api-adapter.js:62-87 | without a URL it throws before any request; otherwise at most three requests go out, and the 401 path makes one refresh and one retry; a failure of the refresh or the retry request is "Authentication expired", and otherwise the retried response decides the result, as on the desktop; after a successful refresh the store differs from the old one only in the two token items |
| MobileApi.Adapter.OnCastStatus | mobile/src/api-adapter.js:257-274 | the callback is stored and both listeners are attached |
| MobileApi.Adapter.OffCastStatus | mobile/src/api-adapter.js:275-285 | the callback is cleared and both listeners are removed |
| MobileApi.Adapter.MediaUpdate | mobile/src/api-adapter.js:259-268 | a media update reaches the callback, normalised, only while one is set |
| MobileApi.Adapter.SessionEnded | mobile/src/api-adapter.js:269-273 | the end of a session reports IDLE/0/0/1, only while a callback is set |
| Dedup.KeyOf | src/renderer/services/api.js:13-14 | only artist info and album tracks are shared, under `artist:<id>` and `album:<id>` |
| Dedup.KeysNeverCollide | src/renderer/services/api.js:13-14 | two calls with the same key are the same call, so an artist and an album never share a result |
| Dedup.Inflight.constructor | src/renderer/services/api.js:1 | the in-flight map starts empty |
| Dedup.Inflight.Dedup | src/renderer/services/api.js:3-8 | a key in flight returns its stored result and invokes nothing; a new key invokes the call once and stores its fresh result under the key |
| Dedup.Inflight.Call | src/renderer/services/api.js:10-25 | calls without a key are always invoked; keyed calls go through `dedup` |
| Dedup.Inflight.Settle | src/renderer/services/api.js:5 | a settled result's key leaves the map, whether it resolved or rejected |
| ReleasesCache.Lookup | src/renderer/services/releasesCache.js:7 | a lookup returns the cached value exactly when one is set and less than 30 minutes old |
| ReleasesCache.HitWithinTtl | src/renderer/services/releasesCache.js:7-14 | a value set less than 30 minutes ago is returned |
| ReleasesCache.MissAfterTtl | src/renderer/services/releasesCache.js:7 | once 30 minutes have passed since the last set, the lookup misses |
| ReleasesCache.InvalidatedMisses | src/renderer/services/releasesCache.js:16-19 | after invalidation every lookup misses |
| ReleasesCache.Cache.constructor | src/renderer/services/releasesCache.js:3-4 | the cache starts empty with time 0 |
| ReleasesCache.Cache.GetCachedReleases | src/renderer/services/releasesCache.js:6-9 | the getter answers `Lookup` and changes nothing |
| ReleasesCache.Cache.SetCachedReleases | src/renderer/services/releasesCache.js:11-14 | the value is stored with the current time |
| ReleasesCache.Cache.InvalidateReleasesCache | src/renderer/services/releasesCache.js:16-19 | the value and the time are cleared |
| PlaybackError.BaseMessage | src/renderer/utils/playbackError.js:7-27 | the three known reasons have their table text, and every other reason gets "Playback error" |
| PlaybackError.MessageOf | src/renderer/utils/playbackError.js:26-27 | the message starts with the reason's text and continues with `: <message>` exactly when the error has a non-empty message |
| PlaybackError.ContextOf | src/renderer/utils/playbackError.js:29 | the context is `{error: message}` exactly when an error object was passed |
| PlaybackError.KnownReasonsAreDistinguished | src/renderer/utils/playbackError.js:7-27 | each known reason gets a message no other reason gets |
| PlaybackError.Signals.constructor | src/renderer/utils/playbackError.js:3-5 | the signals start as given, with no reports and no advances |
| PlaybackError.Signals.HandlePlaybackError | src/renderer/utils/playbackError.js:21-34 | playing and loading always end false, the presence is cleared, one report with the message and context is recorded, and the queue advances once exactly when `playNext` is given and `shouldAdvance` is omitted or true; a `null` one does not advance |
| Watchdog.Step | src/renderer/hooks/usePlaybackWatchdog.js:12-32 | an inactive tick resets to (-1, 0); an active tick stores the time; a stall is counted only when the time is positive and repeats the stored non-negative one; the fourth stall in a row fires and resets the count; any other tick resets it; the count stays below 4 |
| Watchdog.Run | src/renderer/hooks/usePlaybackWatchdog.js:12-32 | between ticks the stall count stays below 4, and a run fires at most once per tick |
| Watchdog.Stuck | src/renderer/hooks/usePlaybackWatchdog.js:19 | a stuck stream repeats the same active observation |
| Watchdog.StuckPlaybackFiresEveryFourTicks | src/renderer/hooks/usePlaybackWatchdog.js:20-31 | a stream stuck at a positive time fires once every four ticks after the first |
| Watchdog.InactiveTickResets | src/renderer/hooks/usePlaybackWatchdog.js:14-17 | whatever came before, a run that ends with an inactive tick ends reset |
| Watchdog.Watch.constructor | src/renderer/hooks/usePlaybackWatchdog.js:9 | the watchdog starts at (-1, 0) |
| Watchdog.Watch.Tick | src/renderer/hooks/usePlaybackWatchdog.js:12-32 | the tick updates the state as `Step`, and when it fires it reports `stream_stalled` through the playback error handler, stopping playback, clearing the Discord presence once and advancing when `playNext` is given; otherwise the signals are untouched |
| AudioFocus.DuckedVolume | mobile/src/audio-focus.js:56 | the ducked volume is a fifth of the original, but never below 0.05 |
| AudioFocus.OnFocusChange | mobile/src/audio-focus.js:21-58 | gain restores a ducked volume and resumes playback paused by a transient loss; loss pauses and forgets; a transient loss remembers whether audio was playing and pauses; duck saves the volume only the first time and lowers it; other events change nothing |
| AudioFocus.Ducks | mobile/src/audio-focus.js:50-57 | a run of `n` duck events |
| AudioFocus.Apply | mobile/src/audio-focus.js:17-59 | events the handler does not know change nothing, and while ducked the element stays at the ducked level of the saved volume |
| AudioFocus.RepeatedDucksKeepOriginal | mobile/src/audio-focus.js:51-56 | any number of ducks keep the volume from before the first one and leave the audio ducked at its fifth |
| AudioFocus.DucksThenGainRestoreVolume | mobile/src/audio-focus.js:24-27 | ducks followed by a gain restore the volume from before the first duck (also lines 51-56) |
| AudioFocus.TransientLossResumes | mobile/src/audio-focus.js:29-48 | playback paused by a transient loss resumes on gain, and playback paused by a permanent loss does not |
| AudioFocus.Handler.constructor | mobile/src/audio-focus.js:8-10 | the handler starts not ducked, not resuming, with a saved volume of 1 |
| AudioFocus.Handler.OnAudioFocusChange | mobile/src/audio-focus.js:17-59 | with an audio element the state becomes `OnFocusChange` of the old one, and without one nothing changes |
| UseCast.PlayingAfter | src/renderer/hooks/useCast.js:115-125 | PLAYING sets playing, PAUSED clears it, IDLE clears it only while playing with a positive duration, and any other state keeps it |
| UseCast.OnlyPlayingStarts | src/renderer/hooks/useCast.js:115-125 | only a PLAYING status starts playback, and an IDLE status before any duration is known changes nothing |
| UseCast.StatusIsIdempotent | src/renderer/hooks/useCast.js:109-126 | applying the same status twice gives the play state applying it once gives |
| UseCast.StartPosition | src/renderer/hooks/useCast.js:32 | the resume position is the cast position while casting, else the local audio time or 0 |
| UseCast.AfterConnectCalls | src/renderer/hooks/useCast.js:45-57 | after connecting, the current track is loaded first; the position is sought exactly when the load succeeded and it is past one second; the receiver is paused exactly when the steps before succeeded and the track was not playing; any failed step ends the sequence with the failure toast; nothing is sent without a track |
| UseCast.Hook.constructor | src/renderer/hooks/useCast.js:4-13 | the signals the hook reads and writes start not casting, with no device, no devices, the picker hidden, position and duration 0 and nothing playing |
| UseCast.Hook.StartDiscovery | src/renderer/hooks/useCast.js:17-24 | the device list is replaced only by a non-empty answer |
| UseCast.Hook.HandleStatus | src/renderer/hooks/useCast.js:109-126 | a status is ignored when not casting; otherwise position and duration take its values or 0, and the play state becomes `PlayingAfter` |
| UseCast.Hook.ConnectDevice | src/renderer/hooks/useCast.js:26-59 | a failed connect only shows the failure toast; a successful one pauses local audio, marks the hook casting with the device, hides the picker, and then runs the calls of `AfterConnect`; a later failure keeps the casting state |
| UseCast.Hook.LoadOnDevice | src/renderer/hooks/useCast.js:45-54 | the bridge calls and the failure toast are those of `AfterConnect` |
| UseCast.Hook.DisconnectCast | src/renderer/hooks/useCast.js:61-96 | the cast state is reset and the toast shown even if the bridge call fails; local playback is pointed at the track's stream to resume at the old cast position when there is a track, an audio element and a stream URL |
| UiState.Flip | src/renderer/state/ui.js:33-43 | a toggle flips its panel, and opening one closes the other |
| UiState.PanelsStayExclusive | src/renderer/state/ui.js:33-43 | if lyrics and queue are not both open, no run of toggles opens both |
| UiState.ToggleTwice | src/renderer/state/ui.js:33-43 | toggling a panel twice restores it, closing the other panel only if the first toggle opened this one |
| UiState.AsList | src/renderer/state/ui.js:130 | a list argument is kept and a single track is wrapped into a one-element list |
| UiState.Ui.constructor | src/renderer/state/ui.js:30-31 | every panel, menu and dialog starts hidden and empty, with no pending caller (also lines 46-53, 72-77, 98-101, 123-125) |
| UiState.Ui.ToggleLyricsPanel | src/renderer/state/ui.js:33-37 | the panels become `Flip` of the old ones for the lyrics toggle |
| UiState.Ui.ToggleQueuePanel | src/renderer/state/ui.js:39-43 | the panels become `Flip` of the old ones for the queue toggle |
| UiState.Ui.ShowContextMenu | src/renderer/state/ui.js:55-62 | the track menu is shown at the given position with the track and options |
| UiState.Ui.RemoveContextMenu | src/renderer/state/ui.js:64-67 | the track menu is hidden and its track cleared |
| UiState.Ui.ShowPlaylistContextMenu | src/renderer/state/ui.js:79-88 | the track menu is removed first, then every playlist-menu field is set |
| UiState.Ui.RemovePlaylistContextMenu | src/renderer/state/ui.js:90-93 | the playlist menu is hidden and its playlist cleared |
| UiState.Ui.ShowInputModal | src/renderer/state/ui.js:103-110 | the modal is shown with its title and the default value or "", and the new caller is the pending one |
| UiState.Ui.CleanupInputModal | src/renderer/state/ui.js:112-118 | the modal is hidden, and a pending caller gets the result once and is cleared |
| UiState.Ui.ShowPlaylistPicker | src/renderer/state/ui.js:127-133 | the picker is shown with the tracks as a list, and the new caller is the pending one |
| UiState.Ui.CleanupPicker | src/renderer/state/ui.js:135-142 | the picker is hidden and emptied, and a pending caller gets the result once and is cleared |
| Navigation.State.constructor | src/renderer/state/navigation.js:1-8 | the app starts on the given view and library, with no detail views and nothing playing |
| Navigation.State.SwitchView | src/renderer/hooks/useAppNavigation.js:13-17 | the view is set and the lyrics and now-playing overlays are closed |
| Navigation.State.ShowPlaylistDetail | src/renderer/hooks/useAppNavigation.js:19-26 | the current playlist and its view state are set, then the view switches to the playlist |
| Navigation.State.ShowAlbumDetail | src/renderer/hooks/useAppNavigation.js:28-34 | the album view state is set, then the view switches to the album |
| Navigation.State.OpenArtistPage | src/renderer/hooks/useAppNavigation.js:36-43 | without an artist id nothing changes; otherwise the artist view is set and shown |
| Navigation.State.OpenVideoPlayer | src/renderer/hooks/useAppNavigation.js:45-52 | local audio is paused only when playing with an audio element, and the video state is always set |
| Navigation.State.CloseVideoPlayer | src/renderer/hooks/useAppNavigation.js:54-56 | the video state is cleared |
| Navigation.State.PlayAlbum | src/renderer/hooks/useAppNavigation.js:58-74 | playback starts at index 0 exactly when the album has tracks; otherwise, or when loading fails, the matching toast is shown |
| PlaylistMenu.Swap | src/renderer/components/shared/PlaylistContextMenu.jsx:53-62 | the two positions are exchanged and every other position is unchanged |
| PlaylistMenu.SwapIsPermutation | src/renderer/components/shared/PlaylistContextMenu.jsx:53-62 | a move keeps the same playlists, each as many times |
| PlaylistMenu.SwapTwiceRestores | src/renderer/components/shared/PlaylistContextMenu.jsx:53-62 | moving a playlist down and back up restores the library |
| PlaylistMenu.WithoutId | src/renderer/components/shared/PlaylistContextMenu.jsx:40 | the filter keeps exactly the playlists with another id |
| PlaylistMenu.WithoutIdKeepsOrder | src/renderer/components/shared/PlaylistContextMenu.jsx:40 | deleting keeps the order of what remains |
| PlaylistMenu.WithoutAbsentIdIsIdentity | src/renderer/components/shared/PlaylistContextMenu.jsx:40 | deleting an id no playlist has changes nothing |
| PlaylistMenu.Renamed | src/renderer/components/shared/PlaylistContextMenu.jsx:29-31 | only the name of the entry at the index changes |
| PlaylistMenu.MoveUp | src/renderer/components/shared/PlaylistContextMenu.jsx:50-57 | at index 0 nothing happens and the menu stays open; otherwise the entry swaps with the one above, the state is saved and the menu closes (also line 23) |
| PlaylistMenu.MoveDown | src/renderer/components/shared/PlaylistContextMenu.jsx:59-66 | at the last index by the menu's total nothing happens; otherwise the entry swaps with the one below, the state is saved and the menu closes (also line 24) |
| PlaylistMenu.Rename | src/renderer/components/shared/PlaylistContextMenu.jsx:26-35 | a non-empty answer renames the entry at the index and saves; an empty or cancelled one changes nothing; the menu closes either way |
| PlaylistMenu.Delete | src/renderer/components/shared/PlaylistContextMenu.jsx:37-48 | on confirmation every playlist with the id is removed and the state saved, and a view of it falls back to the library; the menu closes either way |
| TrackList.Window | src/renderer/components/shared/TrackList.jsx:100-102 | the window starts at 0 or later, ends at the list's length or earlier, and spans at most the rows that fit the viewport plus the overscan on both sides |
| TrackList.VisibleItemsAreInWindow | src/renderer/components/shared/TrackList.jsx:99-102 | every row that shows in the viewport, even partly, is inside the window |
| TrackList.Indices | src/renderer/components/shared/TrackList.jsx:124-125 | the rendered indices run from the start, `max(0, end - start)` of them |
| TrackList.WindowIndicesInBounds | src/renderer/components/shared/TrackList.jsx:100-125 | a window computed for a list names only rows of that list |
| TrackList.RowOffset | src/renderer/components/shared/TrackList.jsx:134 | row `i` ends where row `i + 1` starts |
| TrackList.RowsFitInContainer | src/renderer/components/shared/TrackList.jsx:79 | every row lies inside the container `len * 56` high (also line 134) |
| TrackList.Choose | src/renderer/components/shared/TrackList.jsx:64-73 | null or empty tracks render nothing, up to 80 tracks render every row in order, and longer lists are virtualised (also line 20) |
| TrackList.HeaderClass | src/renderer/components/shared/TrackList.jsx:22-23 | the header shows the plays column exactly when some track has a truthy play count |
| TrackList.CurrentTrack | src/renderer/components/shared/TrackList.jsx:16 | the current track is the queue entry at the index, and undefined outside the queue |
| TrackList.AtMostOneRowPlaying | src/renderer/components/shared/TrackList.jsx:41 | with distinct ids at most one row is marked playing, and none while paused |
| TrackList.CurrentRowPlaysWhilePlaying | src/renderer/components/shared/TrackList.jsx:16-41 | the current track's row is marked exactly while playing |
| TrackList.VirtualList.constructor | src/renderer/components/shared/TrackList.jsx:78 | the range starts at 0..40 |
| TrackList.VirtualList.Update | src/renderer/components/shared/TrackList.jsx:94-105 | the range becomes the window for the scroll position, with rows 56 high and 10 overscan, and a render happens exactly when it changes |
| TrackList.RenderAsWritten | src/renderer/components/shared/TrackList.jsx:124-128 | rendering the range throws exactly when one of its indices is past the end of the list |
| TrackList.StaleWindowOverruns | src/renderer/components/shared/TrackList.jsx:100-128 | a 100-track list scrolled to its end has the window 80..100, and rendering that range after the list loses a track throws |
| TrackList.RenderedRows | src/renderer/components/overlays/SpotifyImport.jsx:195-198 | the guarded render keeps exactly the range's indices that name rows, in increasing order and so without repeats |
| TrackList.RenderedRowsOfFittingRange | src/renderer/components/shared/TrackList.jsx:124-128 | when the range fits the list, the guarded render gives the same rows as the unguarded one |
| SpotifyImport.TotalTracksOfConcat | src/renderer/components/overlays/SpotifyImport.jsx:81 | the total of two lists of files is the sum of their totals |
| SpotifyImport.TotalTracks | src/renderer/components/overlays/SpotifyImport.jsx:81 | the total is 0 exactly when every pending playlist is empty |
| SpotifyImport.EachFileWithinTotal | src/renderer/components/overlays/SpotifyImport.jsx:81 | each file's track count is part of the total |
| SpotifyImport.Summary | src/renderer/components/overlays/SpotifyImport.jsx:81 | the summary starts with the file count and "playlist", with an "s" exactly when there is more than one file, and ends with the total and "tracks total" |
| SpotifyImport.FileSummary | src/renderer/components/overlays/SpotifyImport.jsx:80-82 | the summary is shown exactly by a visible dialog at the file step with at least one file (also lines 26, 49, 67) |
| SpotifyImport.ItemsFitInList | src/renderer/components/overlays/SpotifyImport.jsx:190-208 | item `i` sits at `i * 38` inside a list `len * 38` high |
| SpotifyImport.RenderedItems | src/renderer/components/overlays/SpotifyImport.jsx:195-198 | row k shows the item at the k-th guarded index of the range, so the items come in index order with one per valid index, even while the range is stale |
| SpotifyImport.RenderedItemsOfFittingRange | src/renderer/components/overlays/SpotifyImport.jsx:195-198 | a range inside the list renders exactly its slice of items |
| SpotifyImport.GuardedRowsWithinRange | src/renderer/components/overlays/SpotifyImport.jsx:195-198 | the guard never renders more rows than the range has |
| SpotifyImport.Render | src/renderer/components/overlays/SpotifyImport.jsx:26 | nothing renders exactly when the dialog is hidden |
| SpotifyImport.ItemList.constructor | src/renderer/components/overlays/SpotifyImport.jsx:170 | the range starts at 0..20 |
| SpotifyImport.ItemList.Update | src/renderer/components/overlays/SpotifyImport.jsx:176-183 | the range becomes the window for the scroll position, with items 38 high and 5 overscan, and a render happens exactly when it changes |
| PlaylistHandlers.SafeId | src/main/ipc/playlist.handlers.js:30 | the id keeps its length, keeps every allowed character and replaces every other one by `_` |
| PlaylistHandlers.SafeIdIdempotent | src/main/ipc/playlist.handlers.js:30 | sanitising twice equals sanitising once, and exactly the already safe ids are unchanged |
| PlaylistHandlers.Ext | src/main/ipc/playlist.handlers.js:31 | the extension is the source's, or `.jpg` when it has none |
| PlaylistHandlers.DestName | src/main/ipc/playlist.handlers.js:32 | the file name starts with the sanitised id and `_`, and ends with the extension |
| PlaylistHandlers.DestNameIsOneComponent | src/main/ipc/playlist.handlers.js:30-33 | the file name has no `/` and is neither `.` nor `..`, so it stays in the covers directory |
| PlaylistHandlers.SiblingPassesPrefixCheck | src/main/ipc/playlist.handlers.js:35-48 | the prefix check accepts a file in a sibling directory whose name extends the covers directory's |
| PlaylistHandlers.InsideDirIsContainment | src/main/ipc/playlist.handlers.js:33-35 | the separator-aware check accepts every path in the directory, rejects every sibling, and implies the prefix check |
| PlaylistHandlers.PickImage | src/main/ipc/playlist.handlers.js:23-24 | nothing on cancel or an empty selection, else the first path |
| PlaylistHandlers.Covers.constructor | src/main/ipc/playlist.handlers.js:27 | the covers directory is fixed, and it exists at start exactly when an earlier run left it |
| PlaylistHandlers.Covers.SaveImage | src/main/ipc/playlist.handlers.js:27-42 | a failing directory creation or copy answers null; otherwise the copy lands inside the covers directory under the sanitised name and its path is the answer |
| PlaylistHandlers.Covers.DeleteImage | src/main/ipc/playlist.handlers.js:44-57 | the corrected handler of the line-48 row under "## Findings" (the prefix test as written is `PrefixCheckAsWritten`, and `SiblingPassesPrefixCheck` shows what it lets through): the covers directory is created when missing, and a failure there answers false; an empty path or one outside the directory answers false; one inside answers true when the file is missing or removed; only files inside the directory are ever removed |
| AppUpdater.Int32 | mobile/android/app/src/main/java/com/nyaku/snowify/mobile/AppUpdaterPlugin.java:74 | the `(int)` cast gives a 32-bit value and keeps values that fit |
| AppUpdater.QuotientBounds | mobile/android/app/src/main/java/com/nyaku/snowify/mobile/AppUpdaterPlugin.java:74 | the integer quotient rounds down |
| AppUpdater.QuotientMonotone | mobile/android/app/src/main/java/com/nyaku/snowify/mobile/AppUpdaterPlugin.java:74 | a larger dividend never gives a smaller quotient |
| AppUpdater.QuotientOfMultiple | mobile/android/app/src/main/java/com/nyaku/snowify/mobile/AppUpdaterPlugin.java:74 | dividing `k * n` by `n` gives `k` |
| AppUpdater.ScanCountsEveryByte | mobile/android/app/src/main/java/com/nyaku/snowify/mobile/AppUpdaterPlugin.java:69-71 | the downloaded count is the sum of every read |
| AppUpdater.NoProgressWithoutLength | mobile/android/app/src/main/java/com/nyaku/snowify/mobile/AppUpdaterPlugin.java:73 | without a known length no progress is reported |
| AppUpdater.PercentMonotone | mobile/android/app/src/main/java/com/nyaku/snowify/mobile/AppUpdaterPlugin.java:74 | more bytes never give a smaller percentage |
| AppUpdater.PercentsIncrease | mobile/android/app/src/main/java/com/nyaku/snowify/mobile/AppUpdaterPlugin.java:67-80 | the reported percents start at 0 or more, strictly increase, never exceed the final percentage, and end with it; without reads none is reported |
| AppUpdater.CompleteDownloadEndsAtHundred | mobile/android/app/src/main/java/com/nyaku/snowify/mobile/AppUpdaterPlugin.java:69-80 | a download of exactly the announced length reports 100 last |
| AppUpdater.QuarterDownload | mobile/android/app/src/main/java/com/nyaku/snowify/mobile/AppUpdaterPlugin.java:69-80 | reads of 50, 50 and 100 bytes of 200 report 25, 50 and 100 |
| AppUpdater.Updater.constructor | mobile/android/app/src/main/java/com/nyaku/snowify/mobile/AppUpdaterPlugin.java:20-23 | no events and no answer at start; an APK cached by an earlier run is still there |
| AppUpdater.Updater.DownloadApk | mobile/android/app/src/main/java/com/nyaku/snowify/mobile/AppUpdaterPlugin.java:41-99 | a missing or empty url is rejected before anything starts; a failed connection sends `downloadError` and rejects; otherwise the file gets every byte, one progress event per changed percentage, then `downloadComplete` and resolve, or `downloadError` and reject |
| AppUpdater.Updater.InstallApk | mobile/android/app/src/main/java/com/nyaku/snowify/mobile/AppUpdaterPlugin.java:102-125 | without the cached APK the call is rejected; otherwise the installer starts and the call resolves, or is rejected when starting fails |

## Where the model keeps the code's behaviour

- `CastService.Cast.ConnectToDevice`: a failed launch rejects but keeps the new client open and `connectedDevice` set (src/main/services/cast.js:127-135).
- `CastService.Cast.ConnectToDevice`: an unknown id is looked up and rejected before the existing session is torn down (src/main/services/cast.js:117-123).
- `UseCast.Hook.ConnectDevice`: the failure toast reads "Failed to connect to cast device" (src/renderer/hooks/useCast.js:57).

## Left out

- The mDNS browser, the Cast protocol client, `https.get` body piping, `fetch`, the Capacitor plugins and Android's AudioManager and file system. Their answers are parameters of the methods that use them, and the calls made on them are recorded as sequences of commands or events.
- `CastService.Cast.LoadMedia`: the media session opens only when a load is answered; other media status messages of the receiver (poll replies, unsolicited updates) that also refresh `player.media.currentSession` are not modelled, because the Cast protocol library is not part of this model.
- The `setInterval` scan and poll loops, the retry sleeps, and the toast timers. Only the tick and handler bodies are modelled, with the current time passed in as a parameter.
- The promise races of `connectToDevice`. The control connection's error handler (src/main/services/cast.js:147-150) never settles the pending call; the model's `NeverConnects` outcome leaves the call pending and does not model the error handler's later teardown.
- `JSON.parse` of `artists_json` and the server-side `mapTrackToServer` are kept symbolic; src/shared/fieldMapping.js does not define `mapTrackToServer`.
- `new URL`, `URLSearchParams` and `encodeURIComponent` are kept symbolic: requests carry the raw values.
- `path.resolve`, `path.join` and `path.extname` are not modelled: paths are absolute and normalised with `/`, and the extension is a parameter.
- `os.networkInterfaces()` is a parameter: groups of interfaces in iteration order.
- The desktop `login`/`register` (src/main/services/api.js:93-127) and the mobile `authLogin`/`authRegister` (mobile/src/api-adapter.js:143-172) are left out. They are one request each through `apiFetch`, which is modelled, followed by `setTokens`, which is also modelled.
- The mobile adapter's sync, cast-connect and desktop-only stub functions are left out; they forward to plugins or return constants.
- `getVersionName` in AppUpdaterPlugin.java is left out; it only reads the package manager.
- The track list's search for its scrolling ancestor (src/renderer/components/shared/TrackList.jsx:85-92) and the scroll and resize listeners are left out. The distance scrolled past the list's top and the viewport's height are parameters.
- The IPC wiring in src/main/ipc/cast.handlers.js is not part of this model.
- Audio positions, durations and volumes are `real`, not IEEE doubles.
- The Java `long` and `int` arithmetic of the download loop is unbounded in the model, apart from the `(int)` cast of the percentage, which `AppUpdater.Int32` spells out.
- The APK download runs synchronously in the model; Java runs it on a background thread.
- UiState.Ui.ShowInputModal: an explicit `null` default value becomes "" in the model; the source's default parameter (src/renderer/state/ui.js:103) replaces only `undefined`, so there the modal receives `null`.
- `String(playlistId)` of a non-string id is modelled as the rendering of an optional string.
- JSON values read from responses are `Option`s, so a `null` field and a missing one are the same absent value. The mobile `setTokens` (mobile/src/api-adapter.js:28-31) writes a `null` token as the text "null" and a missing one as "undefined"; the model writes "undefined" for both.
- Characters are Unicode scalar values, while JavaScript strings are UTF-16 code units. `safeId` (src/main/ipc/playlist.handlers.js:30) replaces a character outside the Basic Multilingual Plane with two `_` and the model with one, and `<` on strings orders such characters by their surrogates in the source and by code point in the model.
- AppUpdater.PercentsIncrease: stated only while the final percentage fits a Java `int`; beyond that the cast wraps and the percents need not increase.
- AppUpdater.PercentMonotone: stated under the same bound as `PercentsIncrease`.
- PlaylistHandlers.DestNameIsOneComponent: requires an extension without `/`; `path.extname` never returns one.
- PlaylistMenu.MoveUp: requires the menu's index to be a position of the library, as it is when the menu is opened from the library; the source does not check it.
- PlaylistMenu.MoveDown: requires the same, and requires that the next position exists unless the index is the menu's last; the source trusts the total it was given.
- PlaylistMenu.Rename: requires the menu's index to be a position of the library.
- TrackList.VisibleItemsAreInWindow: requires a positive overscan, which both lists have (10 and 5); with no overscan, a partly shown last row can fall outside the window.

## Findings

| source | as written | input that shows it | evidently intended | confidence | as-written member | corrected member |
|---|---|---|---|---|---|---|
| src/shared/syncMerge.js:38 | the merged history spreads `local.recentTracks`, so a missing history throws a TypeError | `syncMerge({}, {})`, which src/shared/__tests__/syncMerge.test.js:134-139 expects to give empty lists | a missing local history counts as empty, as the other local lists do | not executed | SyncMerge.EmptyInputsThrow | SyncMerge.EmptyInputsMergeToEmpty |
| src/main/ipc/playlist.handlers.js:48 | the containment check is a string prefix test against the covers directory | `/home/u/playlist-covers-old/a.jpg` against `/home/u/playlist-covers` passes, so deleting a cover can remove a file in a sibling directory | the path lies below the directory, separator included | not executed | PlaylistHandlers.SiblingPassesPrefixCheck | PlaylistHandlers.Covers.DeleteImage |
| src/renderer/components/shared/TrackList.jsx:124-128 | rows are looked up as `tracks[i].id` for every index of the range state, which is only recomputed after a render with the new list | a list of 100 tracks scrolled to 5040 pixels in a 560-pixel viewport has the range 80..100; when it drops to 99 tracks, the next render reads `tracks[99].id` and throws | indices past the end render nothing, as the import dialog's list does (src/renderer/components/overlays/SpotifyImport.jsx:198) | not executed | TrackList.StaleWindowOverruns | TrackList.RenderedRowsOfFittingRange |
