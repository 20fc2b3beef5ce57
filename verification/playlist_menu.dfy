/** The playlist context menu's actions: rename, delete, and moving a playlist
    one place up or down in the library. The menu's target, index and total
    come from the shared UI signals; the modal's answer and the confirmation
    are parameters. The handlers exist only while the menu is shown with a
    playlist, which is what their preconditions say; the index is a position
    in the library, as the menu is opened from it. */
module PlaylistMenu {
  import opened JsValues
  import FieldMapping
  import UiState
  import Navigation

  type Playlist = FieldMapping.Playlist

  /** The list with positions `i` and `j` exchanged. */
  function Swap(s: seq<Playlist>, i: nat, j: nat): (r: seq<Playlist>)
    requires i < |s| && j < |s|
    ensures |r| == |s| && r[i] == s[j] && r[j] == s[i]
    ensures forall k :: 0 <= k < |s| && k != i && k != j ==> r[k] == s[k]
  {
    s[i := s[j]][j := s[i]]
  }

  /** A swap is a permutation: the same playlists, each as many times. */
  lemma {:induction false} SwapIsPermutation(s: seq<Playlist>, i: nat, j: nat)
    requires i < |s| && j < |s|
    ensures multiset(Swap(s, i, j)) == multiset(s)
  {
    var t := s[i := s[j]];
    assert multiset(t) == multiset(s) - multiset{s[i]} + multiset{s[j]};
    assert multiset(t[j := s[i]]) == multiset(t) - multiset{t[j]} + multiset{s[i]};
  }

  /** Moving a playlist down and then back up restores the library. */
  lemma SwapTwiceRestores(s: seq<Playlist>, i: nat)
    requires i + 1 < |s|
    ensures Swap(Swap(s, i, i + 1), i, i + 1) == s
  {
  }

  /** `playlists.filter(p => p.id !== id)`. */
  function WithoutId(s: seq<Playlist>, id: Option<string>): (r: seq<Playlist>)
    ensures |r| <= |s|
    ensures forall k :: 0 <= k < |r| ==> r[k].id != id
    ensures forall k :: 0 <= k < |s| && s[k].id != id ==> s[k] in r
    ensures forall p :: p in r ==> p in s
    decreases |s|
  {
    if |s| == 0 then []
    else if s[0].id == id then WithoutId(s[1..], id)
    else [s[0]] + WithoutId(s[1..], id)
  }

  /** Deleting keeps the order of what remains: filtering a concatenation filters each part. */
  lemma {:induction false} WithoutIdKeepsOrder(a: seq<Playlist>, b: seq<Playlist>, id: Option<string>)
    ensures WithoutId(a + b, id) == WithoutId(a, id) + WithoutId(b, id)
    decreases |a|
  {
    if |a| == 0 {
      assert a + b == b;
    } else {
      assert (a + b)[1..] == a[1..] + b;
      WithoutIdKeepsOrder(a[1..], b, id);
    }
  }

  /** A library without the deleted id is left as it is. */
  lemma {:induction false} WithoutAbsentIdIsIdentity(s: seq<Playlist>, id: Option<string>)
    requires forall k :: 0 <= k < |s| ==> s[k].id != id
    ensures WithoutId(s, id) == s
    decreases |s|
  {
    if |s| > 0 {
      WithoutAbsentIdIsIdentity(s[1..], id);
    }
  }

  /** The library with the entry at `index` renamed. */
  function Renamed(s: seq<Playlist>, index: nat, name: string): (r: seq<Playlist>)
    requires index < |s|
    ensures |r| == |s| && r[index] == s[index].(name := Some(name))
    ensures forall k :: 0 <= k < |s| && k != index ==> r[k] == s[k]
  {
    s[index := s[index].(name := Some(name))]
  }

  /** `handleMoveUp`: at the top it does nothing, not even closing the menu. */
  method MoveUp(ui: UiState.Ui, app: Navigation.State)
    requires ui.plMenuVisible && ui.plMenuPlaylist.Some?
    requires 0 <= ui.plMenuIndex < |app.playlists|
    modifies app`playlists, app`saves, ui`plMenuVisible, ui`plMenuPlaylist
    ensures old(ui.plMenuIndex) == 0 ==>
      app.playlists == old(app.playlists) && app.saves == old(app.saves) &&
      ui.plMenuVisible && ui.plMenuPlaylist == old(ui.plMenuPlaylist)
    ensures old(ui.plMenuIndex) != 0 ==>
      app.playlists == Swap(old(app.playlists), ui.plMenuIndex - 1, ui.plMenuIndex) &&
      app.saves == old(app.saves) + 1 && !ui.plMenuVisible && ui.plMenuPlaylist.None?
  {
    var index := ui.plMenuIndex;
    if index == 0 {
      return;
    }
    var src := app.playlists;
    var pls := new Playlist[|src|](k requires 0 <= k < |src| => src[k]);
    pls[index - 1], pls[index] := pls[index], pls[index - 1];
    app.playlists := pls[..];
    app.saves := app.saves + 1;
    ui.RemovePlaylistContextMenu();
  }

  /** `handleMoveDown`: at the last place (by the total the menu was opened with) it does nothing. */
  method MoveDown(ui: UiState.Ui, app: Navigation.State)
    requires ui.plMenuVisible && ui.plMenuPlaylist.Some?
    requires 0 <= ui.plMenuIndex < |app.playlists|
    requires ui.plMenuIndex != ui.plMenuTotal - 1 ==> ui.plMenuIndex + 1 < |app.playlists|
    modifies app`playlists, app`saves, ui`plMenuVisible, ui`plMenuPlaylist
    ensures old(ui.plMenuIndex) == old(ui.plMenuTotal) - 1 ==>
      app.playlists == old(app.playlists) && app.saves == old(app.saves) &&
      ui.plMenuVisible && ui.plMenuPlaylist == old(ui.plMenuPlaylist)
    ensures old(ui.plMenuIndex) != old(ui.plMenuTotal) - 1 ==>
      app.playlists == Swap(old(app.playlists), ui.plMenuIndex, ui.plMenuIndex + 1) &&
      app.saves == old(app.saves) + 1 && !ui.plMenuVisible && ui.plMenuPlaylist.None?
  {
    var index := ui.plMenuIndex;
    if index == ui.plMenuTotal - 1 {
      return;
    }
    var src := app.playlists;
    var pls := new Playlist[|src|](k requires 0 <= k < |src| => src[k]);
    pls[index], pls[index + 1] := pls[index + 1], pls[index];
    app.playlists := pls[..];
    app.saves := app.saves + 1;
    ui.RemovePlaylistContextMenu();
  }

  /** `handleRename`: a non-empty answer renames the entry at the menu's index; the menu
      closes either way. */
  method Rename(ui: UiState.Ui, app: Navigation.State, newName: Option<string>)
    requires ui.plMenuVisible && ui.plMenuPlaylist.Some?
    requires 0 <= ui.plMenuIndex < |app.playlists|
    modifies app`playlists, app`saves, ui`plMenuVisible, ui`plMenuPlaylist
    ensures Truthy(newName) ==>
      app.playlists == Renamed(old(app.playlists), ui.plMenuIndex, newName.value) && app.saves == old(app.saves) + 1
    ensures !Truthy(newName) ==> app.playlists == old(app.playlists) && app.saves == old(app.saves)
    ensures !ui.plMenuVisible && ui.plMenuPlaylist.None?
  {
    var index := ui.plMenuIndex;
    if Truthy(newName) {
      var src := app.playlists;
      var pls := new Playlist[|src|](k requires 0 <= k < |src| => src[k]);
      pls[index] := pls[index].(name := newName);
      app.playlists := pls[..];
      app.saves := app.saves + 1;
    }
    ui.RemovePlaylistContextMenu();
  }

  /** `handleDelete`: on confirmation, every playlist with the target's id goes, and a view of
      it falls back to the library; the menu closes either way. */
  method Delete(ui: UiState.Ui, app: Navigation.State, confirmed: bool)
    requires ui.plMenuVisible && ui.plMenuPlaylist.Some?
    modifies app`playlists, app`saves, app`currentView, app`currentPlaylistId, ui`plMenuVisible, ui`plMenuPlaylist
    ensures var id := old(ui.plMenuPlaylist).value.id;
      (confirmed ==> app.playlists == WithoutId(old(app.playlists), id) && app.saves == old(app.saves) + 1) &&
      (confirmed && old(app.currentPlaylistId) == id ==> app.currentView == "library" && app.currentPlaylistId.None?) &&
      (!(confirmed && old(app.currentPlaylistId) == id) ==>
        app.currentView == old(app.currentView) && app.currentPlaylistId == old(app.currentPlaylistId)) &&
      (!confirmed ==> app.playlists == old(app.playlists) && app.saves == old(app.saves))
    ensures !ui.plMenuVisible && ui.plMenuPlaylist.None?
  {
    var playlist := ui.plMenuPlaylist.value;
    if confirmed {
      app.playlists := WithoutId(app.playlists, playlist.id);
      app.saves := app.saves + 1;
      if app.currentPlaylistId == playlist.id {
        app.currentView := "library";
        app.currentPlaylistId := None;
      }
    }
    ui.RemovePlaylistContextMenu();
  }
}
