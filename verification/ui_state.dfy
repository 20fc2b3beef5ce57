/** The renderer's shared UI signals: the two overlay panels that exclude
    each other, the track and playlist context menus, and the two modal dialogs
    whose callers wait on a promise. A pending caller is named by a number; a
    resolution is recorded with the value it received. Toast timers are left
    out. */
module UiState {
  import opened JsValues
  import FieldMapping

  // ─── Overlay panels ───

  datatype Panels = Panels(lyrics: bool, queue: bool)
  datatype Toggle = ToggleLyrics | ToggleQueue

  /** `toggleLyricsPanel` / `toggleQueuePanel`: flip one panel, and close the other when opening. */
  function Flip(p: Panels, t: Toggle): (r: Panels)
    ensures t.ToggleLyrics? ==> r.lyrics == !p.lyrics && r.queue == (p.queue && p.lyrics)
    ensures t.ToggleQueue? ==> r.queue == !p.queue && r.lyrics == (p.lyrics && p.queue)
  {
    match t
    case ToggleLyrics => Panels(!p.lyrics, if !p.lyrics then false else p.queue)
    case ToggleQueue => Panels(if !p.queue then false else p.lyrics, !p.queue)
  }

  function Flips(p: Panels, ts: seq<Toggle>): Panels
    decreases |ts|
  {
    if |ts| == 0 then p else Flip(Flips(p, ts[..|ts| - 1]), ts[|ts| - 1])
  }

  /** From a state where the two panels are not both open, no sequence of toggles opens both. */
  lemma {:induction false} PanelsStayExclusive(p: Panels, ts: seq<Toggle>)
    requires !(p.lyrics && p.queue)
    ensures !(Flips(p, ts).lyrics && Flips(p, ts).queue)
    decreases |ts|
  {
    if |ts| > 0 {
      PanelsStayExclusive(p, ts[..|ts| - 1]);
    }
  }

  /** Toggling the same panel twice from an exclusive state returns to it, except that opening
      one panel has closed the other for good. */
  lemma ToggleTwice(p: Panels, t: Toggle)
    requires !(p.lyrics && p.queue)
    ensures t.ToggleLyrics? ==> Flip(Flip(p, t), t) == (if p.lyrics then p else p.(queue := false))
    ensures t.ToggleQueue? ==> Flip(Flip(p, t), t) == (if p.queue then p else p.(lyrics := false))
  {
  }

  /** The argument of `showPlaylistPicker`: an array, or a single track. */
  datatype TracksArg = Many(tracks: seq<FieldMapping.Track>) | One(track: FieldMapping.Track)

  function AsList(a: TracksArg): (ts: seq<FieldMapping.Track>)
    ensures a.Many? ==> ts == a.tracks
    ensures a.One? ==> ts == [a.track]
  {
    match a
    case Many(ts) => ts
    case One(t) => [t]
  }

  class Ui {
    var lyricsVisible: bool
    var queueVisible: bool
    var nowPlayingViewVisible: bool

    var menuVisible: bool
    var menuX: int
    var menuY: int
    var menuTrack: Option<FieldMapping.Track>
    var menuOptions: map<string, bool>

    var plMenuVisible: bool
    var plMenuX: int
    var plMenuY: int
    var plMenuPlaylist: Option<FieldMapping.Playlist>
    var plMenuIndex: int
    var plMenuTotal: int

    var modalVisible: bool
    var modalTitle: string
    var modalDefaultValue: string
    var inputResolve: Option<nat>          // the caller waiting on the input modal
    var inputResults: seq<(nat, Option<string>)>

    var pickerVisible: bool
    var pickerTracks: seq<FieldMapping.Track>
    var pickerResolve: Option<nat>         // the caller waiting on the playlist picker
    var pickerResults: seq<(nat, Option<string>)>

    var nextCaller: nat

    /** Every waiting caller is one that was created, and none was resolved already. */
    ghost predicate Valid()
      reads this
    {
      (inputResolve.Some? ==> inputResolve.value < nextCaller && forall i :: 0 <= i < |inputResults| ==> inputResults[i].0 != inputResolve.value) &&
      (pickerResolve.Some? ==> pickerResolve.value < nextCaller && forall i :: 0 <= i < |pickerResults| ==> pickerResults[i].0 != pickerResolve.value) &&
      (forall i :: 0 <= i < |inputResults| ==> inputResults[i].0 < nextCaller) &&
      (forall i :: 0 <= i < |pickerResults| ==> pickerResults[i].0 < nextCaller)
    }

    constructor ()
      ensures Valid()
      ensures !lyricsVisible && !queueVisible && !nowPlayingViewVisible
      ensures !menuVisible && menuTrack.None? && !plMenuVisible && plMenuPlaylist.None?
      ensures plMenuIndex == 0 && plMenuTotal == 0
      ensures !modalVisible && inputResolve.None? && inputResults == []
      ensures !pickerVisible && pickerTracks == [] && pickerResolve.None? && pickerResults == []
    {
      lyricsVisible, queueVisible, nowPlayingViewVisible := false, false, false;
      menuVisible, menuX, menuY, menuTrack, menuOptions := false, 0, 0, None, map[];
      plMenuVisible, plMenuX, plMenuY, plMenuPlaylist, plMenuIndex, plMenuTotal := false, 0, 0, None, 0, 0;
      modalVisible, modalTitle, modalDefaultValue, inputResolve, inputResults := false, "", "", None, [];
      pickerVisible, pickerTracks, pickerResolve, pickerResults := false, [], None, [];
      nextCaller := 0;
    }

    method ToggleLyricsPanel()
      modifies this`lyricsVisible, this`queueVisible
      ensures Panels(lyricsVisible, queueVisible) == Flip(Panels(old(lyricsVisible), old(queueVisible)), ToggleLyrics)
    {
      var opening := !lyricsVisible;
      lyricsVisible := !lyricsVisible;
      if opening {
        queueVisible := false;
      }
    }

    method ToggleQueuePanel()
      modifies this`lyricsVisible, this`queueVisible
      ensures Panels(lyricsVisible, queueVisible) == Flip(Panels(old(lyricsVisible), old(queueVisible)), ToggleQueue)
    {
      var opening := !queueVisible;
      queueVisible := !queueVisible;
      if opening {
        lyricsVisible := false;
      }
    }

    method ShowContextMenu(x: int, y: int, track: Option<FieldMapping.Track>, options: map<string, bool>)
      modifies this`menuVisible, this`menuX, this`menuY, this`menuTrack, this`menuOptions
      ensures menuVisible && menuX == x && menuY == y && menuTrack == track && menuOptions == options
    {
      menuTrack := track;
      menuOptions := options;
      menuX := x;
      menuY := y;
      menuVisible := true;
    }

    method RemoveContextMenu()
      modifies this`menuVisible, this`menuTrack
      ensures !menuVisible && menuTrack.None?
    {
      menuVisible := false;
      menuTrack := None;
    }

    /** `showPlaylistContextMenu`: the track menu is closed first, so at most one menu is open. */
    method ShowPlaylistContextMenu(x: int, y: int, playlist: Option<FieldMapping.Playlist>, index: int, total: int)
      modifies this`menuVisible, this`menuTrack, this`plMenuVisible, this`plMenuX, this`plMenuY,
               this`plMenuPlaylist, this`plMenuIndex, this`plMenuTotal
      ensures !menuVisible && menuTrack.None?
      ensures plMenuVisible && plMenuX == x && plMenuY == y && plMenuPlaylist == playlist
      ensures plMenuIndex == index && plMenuTotal == total
    {
      RemoveContextMenu();
      plMenuPlaylist := playlist;
      plMenuIndex := index;
      plMenuTotal := total;
      plMenuX := x;
      plMenuY := y;
      plMenuVisible := true;
    }

    method RemovePlaylistContextMenu()
      modifies this`plMenuVisible, this`plMenuPlaylist
      ensures !plMenuVisible && plMenuPlaylist.None?
    {
      plMenuVisible := false;
      plMenuPlaylist := None;
    }

    /** `showInputModal`: a new caller waits; one still waiting from before is forgotten and
        never resolved. */
    method ShowInputModal(title: string, defaultValue: Option<string>) returns (caller: nat)
      requires Valid()
      modifies this`inputResolve, this`modalTitle, this`modalDefaultValue, this`modalVisible, this`nextCaller
      ensures Valid()
      ensures caller == old(nextCaller) && inputResolve == Some(caller) && nextCaller == old(nextCaller) + 1
      ensures modalVisible && modalTitle == title && modalDefaultValue == Coalesce(defaultValue, "")
    {
      caller := nextCaller;
      nextCaller := nextCaller + 1;
      inputResolve := Some(caller);
      modalTitle := title;
      modalDefaultValue := Coalesce(defaultValue, "");
      modalVisible := true;
    }

    /** `cleanupInputModal`: hides the modal and resolves the waiting caller, if any, once. */
    method CleanupInputModal(result: Option<string>)
      requires Valid()
      modifies this`modalVisible, this`inputResolve, this`inputResults
      ensures Valid()
      ensures !modalVisible && inputResolve.None?
      ensures inputResults == old(inputResults) + (if old(inputResolve).Some? then [(old(inputResolve).value, result)] else [])
    {
      modalVisible := false;
      if inputResolve.Some? {
        inputResults := inputResults + [(inputResolve.value, result)];
        inputResolve := None;
      }
    }

    /** `showPlaylistPicker`: a single track is wrapped into a list. */
    method ShowPlaylistPicker(tracks: TracksArg) returns (caller: nat)
      requires Valid()
      modifies this`pickerResolve, this`pickerTracks, this`pickerVisible, this`nextCaller
      ensures Valid()
      ensures caller == old(nextCaller) && pickerResolve == Some(caller) && nextCaller == old(nextCaller) + 1
      ensures pickerVisible && pickerTracks == AsList(tracks)
    {
      caller := nextCaller;
      nextCaller := nextCaller + 1;
      pickerResolve := Some(caller);
      pickerTracks := match tracks case Many(ts) => ts case One(t) => [t];
      pickerVisible := true;
    }

    /** `cleanupPicker`: hides the picker, empties its tracks, and resolves the waiting caller,
        if any, once. */
    method CleanupPicker(result: Option<string>)
      requires Valid()
      modifies this`pickerVisible, this`pickerTracks, this`pickerResolve, this`pickerResults
      ensures Valid()
      ensures !pickerVisible && pickerTracks == [] && pickerResolve.None?
      ensures pickerResults == old(pickerResults) + (if old(pickerResolve).Some? then [(old(pickerResolve).value, result)] else [])
    {
      pickerVisible := false;
      pickerTracks := [];
      if pickerResolve.Some? {
        pickerResults := pickerResults + [(pickerResolve.value, result)];
        pickerResolve := None;
      }
    }
  }

  /** Opening the queue closes lyrics; a modal opened twice before cleanup resolves only the
      second caller; cleaning up twice resolves nobody the second time. */
  method UiScenario()
  {
    var ui := new Ui();
    ui.ToggleLyricsPanel();
    ui.ToggleQueuePanel();
    assert ui.queueVisible && !ui.lyricsVisible;
    var first := ui.ShowInputModal("Rename playlist", Some("Mix"));
    var second := ui.ShowInputModal("Rename playlist", None);
    ui.CleanupInputModal(Some("Road trip"));
    ui.CleanupInputModal(None);
    assert ui.inputResults == [(second, Some("Road trip"))] && first != second;
  }
}
