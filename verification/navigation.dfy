/** The renderer's navigation callbacks: switching views (which closes the
    full-screen overlays), opening the playlist, album and artist pages, the
    video player, and playing an album. The application signals they write are
    the fields of a class; the overlay flags live in the shared UI signals.
    Fetching an album is replaced by its outcome and `playFromList` by a record
    of its calls. */
module Navigation {
  import opened JsValues
  import FieldMapping
  import UiState

  datatype PlaylistView = PlaylistView(playlist: FieldMapping.Playlist, isLiked: bool)
  datatype AlbumView = AlbumView(albumId: Option<string>, albumMeta: Option<string>)
  datatype Video = Video(videoId: string, title: Option<string>, artist: Option<string>)

  /** An album as the API returns it, by the field `playAlbum` reads. */
  datatype Album = Album(tracks: Option<seq<FieldMapping.Track>>)

  /** Whether `album?.tracks?.length` is truthy. */
  predicate HasTracks(album: Option<Album>) {
    album.Some? && album.value.tracks.Some? && |album.value.tracks.value| > 0
  }

  /** The application signals the callbacks write. */
  class State {
    var currentView: string
    var currentPlaylistId: Option<string>
    var playlists: seq<FieldMapping.Playlist>
    var saves: nat                      // calls of `saveState`
    var isPlaying: bool
    var audioPaused: bool
    var playlistViewState: Option<PlaylistView>
    var albumViewState: Option<AlbumView>
    var artistViewState: Option<string>
    var videoPlayerState: Option<Video>
    var toasts: seq<string>
    var played: seq<(seq<FieldMapping.Track>, nat)>   // calls of `playFromList`

    constructor (view: string, pls: seq<FieldMapping.Playlist>)
      ensures currentView == view && playlists == pls && currentPlaylistId.None? && saves == 0
      ensures !isPlaying && audioPaused && toasts == [] && played == []
      ensures playlistViewState.None? && albumViewState.None? && artistViewState.None? && videoPlayerState.None?
    {
      currentView := view;
      currentPlaylistId := None;
      playlists := pls;
      saves := 0;
      isPlaying := false;
      audioPaused := true;
      playlistViewState := None;
      albumViewState := None;
      artistViewState := None;
      videoPlayerState := None;
      toasts := [];
      played := [];
    }

    /** `switchView`: sets the view and closes the lyrics and now-playing overlays. */
    method SwitchView(ui: UiState.Ui, name: string)
      modifies this`currentView, ui`lyricsVisible, ui`nowPlayingViewVisible
      ensures currentView == name && !ui.lyricsVisible && !ui.nowPlayingViewVisible
    {
      currentView := name;
      if ui.lyricsVisible {
        ui.lyricsVisible := false;
      }
      if ui.nowPlayingViewVisible {
        ui.nowPlayingViewVisible := false;
      }
    }

    method ShowPlaylistDetail(ui: UiState.Ui, playlist: FieldMapping.Playlist, isLiked: bool)
      modifies this`currentView, this`currentPlaylistId, this`playlistViewState,
               ui`lyricsVisible, ui`nowPlayingViewVisible
      ensures currentPlaylistId == playlist.id && playlistViewState == Some(PlaylistView(playlist, isLiked))
      ensures currentView == "playlist" && !ui.lyricsVisible && !ui.nowPlayingViewVisible
    {
      currentPlaylistId := playlist.id;
      playlistViewState := Some(PlaylistView(playlist, isLiked));
      SwitchView(ui, "playlist");
    }

    method ShowAlbumDetail(ui: UiState.Ui, albumId: Option<string>, albumMeta: Option<string>)
      modifies this`currentView, this`albumViewState, ui`lyricsVisible, ui`nowPlayingViewVisible
      ensures albumViewState == Some(AlbumView(albumId, albumMeta))
      ensures currentView == "album" && !ui.lyricsVisible && !ui.nowPlayingViewVisible
    {
      albumViewState := Some(AlbumView(albumId, albumMeta));
      SwitchView(ui, "album");
    }

    /** `openArtistPage`: nothing at all happens without an artist id. */
    method OpenArtistPage(ui: UiState.Ui, artistId: Option<string>)
      modifies this`currentView, this`artistViewState, ui`lyricsVisible, ui`nowPlayingViewVisible
      ensures !Truthy(artistId) ==>
        currentView == old(currentView) && artistViewState == old(artistViewState) &&
        ui.lyricsVisible == old(ui.lyricsVisible) && ui.nowPlayingViewVisible == old(ui.nowPlayingViewVisible)
      ensures Truthy(artistId) ==>
        artistViewState == artistId && currentView == "artist" && !ui.lyricsVisible && !ui.nowPlayingViewVisible
    {
      if !Truthy(artistId) {
        return;
      }
      artistViewState := artistId;
      SwitchView(ui, "artist");
    }

    /** `openVideoPlayer`: local audio is paused only when it is playing and present. */
    method OpenVideoPlayer(hasAudio: bool, videoId: string, title: Option<string>, artist: Option<string>)
      modifies this`isPlaying, this`audioPaused, this`videoPlayerState
      ensures videoPlayerState == Some(Video(videoId, title, artist))
      ensures old(isPlaying) && hasAudio ==> !isPlaying && audioPaused
      ensures !(old(isPlaying) && hasAudio) ==> isPlaying == old(isPlaying) && audioPaused == old(audioPaused)
    {
      if isPlaying && hasAudio {
        audioPaused := true;
        isPlaying := false;
      }
      videoPlayerState := Some(Video(videoId, title, artist));
    }

    method CloseVideoPlayer()
      modifies this`videoPlayerState
      ensures videoPlayerState.None?
    {
      videoPlayerState := None;
    }

    /** `playAlbum`: plays from the first track only when the album has tracks. */
    method PlayAlbum(outcome: Result<Option<Album>, string>)
      modifies this`toasts, this`played
      ensures outcome.Err? ==> played == old(played) && toasts == old(toasts) + ["Loading album...", "Could not load album"]
      ensures outcome.Ok? && HasTracks(outcome.value) ==>
        played == old(played) + [(outcome.value.value.tracks.value, 0)] && toasts == old(toasts) + ["Loading album..."]
      ensures outcome.Ok? && !HasTracks(outcome.value) ==>
        played == old(played) && toasts == old(toasts) + ["Loading album...", "Could not load album tracks"]
    {
      toasts := toasts + ["Loading album..."];
      if outcome.Err? {
        toasts := toasts + ["Could not load album"];
        return;
      }
      var album := outcome.value;
      if HasTracks(album) {
        played := played + [(album.value.tracks.value, 0)];
      } else {
        toasts := toasts + ["Could not load album tracks"];
      }
    }
  }

  /** Opening an album from the lyrics overlay closes it; an empty artist id leaves the view. */
  method NavigationScenario()
  {
    var ui := new UiState.Ui();
    var st := new State("home", []);
    ui.ToggleLyricsPanel();
    st.ShowAlbumDetail(ui, Some("a1"), None);
    assert st.currentView == "album" && !ui.lyricsVisible;
    st.OpenArtistPage(ui, Some(""));
    assert st.currentView == "album";
    st.PlayAlbum(Ok(Some(Album(Some([])))));
    assert st.played == [];
  }
}
