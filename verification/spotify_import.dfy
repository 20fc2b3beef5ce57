/** The Spotify import dialog's rendering: the summary of the CSV files picked
    so far and the virtualised list of import progress items. The dialog's
    state (step, pending playlists, items) comes from its hook, which is not
    part of this model; the scroll position and height of the list are
    parameters. */
module SpotifyImport {
  import opened JsValues
  import TrackList

  const ITEM_HEIGHT: nat := 38
  const OVERSCAN: nat := 5

  /** A track read from a CSV file. */
  datatype CsvTrack = CsvTrack(title: string, artist: string)

  /** A playlist parsed from one CSV file, waiting to be imported. */
  datatype Pending = Pending(name: string, tracks: seq<CsvTrack>)

  /** A row of the progress list. */
  datatype Item = Item(id: string, status: string, title: string, artist: string)

  /** `pendingPlaylists.reduce((s, p) => s + p.tracks.length, 0)`. */
  function TotalTracks(ps: seq<Pending>): (t: nat)
    ensures t == 0 <==> forall i :: 0 <= i < |ps| ==> ps[i].tracks == []
    decreases |ps|
  {
    if |ps| == 0 then 0 else TotalTracks(ps[..|ps| - 1]) + |ps[|ps| - 1].tracks|
  }

  /** The total of two lists of files is the sum of their totals. */
  lemma {:induction false} TotalTracksOfConcat(a: seq<Pending>, b: seq<Pending>)
    ensures TotalTracks(a + b) == TotalTracks(a) + TotalTracks(b)
    decreases |b|
  {
    if |b| == 0 {
      assert a + b == a;
    } else {
      assert (a + b)[..|a + b| - 1] == a + b[..|b| - 1];
      TotalTracksOfConcat(a, b[..|b| - 1]);
    }
  }

  /** The total counts every track of every file: each file's count is part of it. */
  lemma {:induction false} EachFileWithinTotal(ps: seq<Pending>, k: nat)
    requires k < |ps|
    ensures |ps[k].tracks| <= TotalTracks(ps)
  {
    assert ps == ps[..k] + [ps[k]] + ps[k + 1..];
    TotalTracksOfConcat(ps[..k] + [ps[k]], ps[k + 1..]);
    TotalTracksOfConcat(ps[..k], [ps[k]]);
    assert [ps[k]][..0] == [];
  }

  /** The file summary: the number of files, "playlist" with an "s" when there is more than
      one, and the total number of tracks. */
  function Summary(ps: seq<Pending>): (r: string)
    ensures var n := NatToString(|ps|);
      |r| > |n| + 9 && r[..|n| + 9] == n + " playlist" &&
      (r[|n| + 9] == 's' <==> |ps| > 1)
    ensures var t := NatToString(TotalTracks(ps)) + " tracks total";
      |r| >= |t| && r[|r| - |t|..] == t
  {
    NatToString(|ps|) + " playlist" + (if |ps| > 1 then "s" else "") + " — " +
      NatToString(TotalTracks(ps)) + " tracks total"
  }

  /** The summary is shown only by a visible dialog, at the file-selection step, with at least
      one file picked. */
  function FileSummary(visible: bool, step: string, pending: Option<seq<Pending>>): (r: Option<string>)
    ensures r.Some? <==> visible && step == "select" && pending.Some? && |pending.value| > 0
    ensures r.Some? ==> r.value == Summary(pending.value)
  {
    if visible && step == "select" && pending.Some? && |pending.value| > 0 then Some(Summary(pending.value))
    else None
  }

  /** Item `i` sits `i * 38` pixels from the top of a list `len * 38` high. */
  function ItemTop(i: nat): nat {
    i * ITEM_HEIGHT
  }

  function ListHeight(len: nat): nat {
    len * ITEM_HEIGHT
  }

  lemma ItemsFitInList(i: nat, len: nat)
    requires i < len
    ensures ItemTop(i) + ITEM_HEIGHT <= ListHeight(len)
  {
  }

  /** The items rendered for a range state: indices without an item render nothing, so every
      rendered index names an item, even while the range is stale. */
  function RenderedItems(items: seq<Item>, r: TrackList.Range): (shown: seq<Item>)
    ensures |shown| <= |TrackList.Indices(r)|
    ensures forall it :: it in shown ==> it in items
    ensures var rows := TrackList.RenderedRows(|items|, r);
      |shown| == |rows| && forall k :: 0 <= k < |rows| ==> 0 <= rows[k] < |items| && shown[k] == items[rows[k]]
  {
    var rows := TrackList.RenderedRows(|items|, r);
    assert forall k :: 0 <= k < |rows| ==> 0 <= rows[k] < |items| by {
      forall k | 0 <= k < |rows|
        ensures 0 <= rows[k] < |items|
      {
        assert rows[k] in rows;
      }
    }
    GuardedRowsWithinRange(|items|, r);
    seq(|rows|, k requires 0 <= k < |rows| => items[rows[k]])
  }

  /** The guarded rows are fewer than the range's indices. */
  lemma {:induction false} GuardedRowsWithinRange(len: nat, r: TrackList.Range)
    ensures |TrackList.RenderedRows(len, r)| <= |TrackList.Indices(r)|
    decreases |TrackList.Indices(r)|
  {
    if |TrackList.Indices(r)| > 0 {
      GuardedRowsWithinRange(len, TrackList.Range(r.start + 1, r.end));
    }
  }

  /** A range inside the list renders exactly its slice of items, in order. */
  lemma RenderedItemsOfFittingRange(items: seq<Item>, r: TrackList.Range)
    requires 0 <= r.start <= r.end <= |items|
    ensures RenderedItems(items, r) == items[r.start..r.end]
  {
    forall i | i in TrackList.Indices(r)
      ensures 0 <= i < |items|
    {
    }
    TrackList.RenderedRowsOfFittingRange(|items|, r);
  }

  /** Nothing renders while the dialog is hidden; otherwise the modal renders with the summary
      when there is one. */
  datatype Dialog = Hidden | Shown(summary: Option<string>)

  function Render(visible: bool, step: string, pending: Option<seq<Pending>>): (d: Dialog)
    ensures d.Hidden? <==> !visible
    ensures d.Shown? ==> d.summary == FileSummary(visible, step, pending)
  {
    if !visible then Hidden else Shown(FileSummary(visible, step, pending))
  }

  /** The list's `update` handler: it replaces the range state only when the window for the
      current scroll position differs. */
  class ItemList {
    var range: TrackList.Range
    var renders: nat

    constructor ()
      ensures range == TrackList.Range(0, 20) && renders == 0
    {
      range := TrackList.Range(0, 20);
      renders := 0;
    }

    method Update(scrollTop: real, viewHeight: real, len: nat)
      modifies this
      ensures range == TrackList.Window(scrollTop, viewHeight, len, ITEM_HEIGHT, OVERSCAN)
      ensures renders == old(renders) + (if old(range) == range then 0 else 1)
      ensures forall i :: i in TrackList.Indices(range) ==> 0 <= i < len
    {
      var start := TrackList.Max(0, TrackList.FloorDiv(scrollTop, ITEM_HEIGHT) - OVERSCAN);
      var visible := TrackList.CeilDiv(viewHeight, ITEM_HEIGHT) + 2 * OVERSCAN;
      var end := TrackList.Min(len, start + visible);
      if range.start != start || range.end != end {
        range := TrackList.Range(start, end);
        renders := renders + 1;
      }
    }
  }

  /** Two files of 3 and 1 tracks; the first window of a short list covers it all, and a repeated
      update renders nothing new. */
  method ImportScenario()
  {
    var ps := [Pending("Mix", [CsvTrack("a", "x"), CsvTrack("b", "y"), CsvTrack("c", "z")]), Pending("Solo", [CsvTrack("d", "w")])];
    assert TotalTracks(ps) == 4 by {
      assert ps[..1] == [ps[0]];
      assert ps[..1][..0] == [];
    }
    var l := new ItemList();
    l.Update(0.0, 380.0, 12);
    assert l.range == TrackList.Range(0, 12) by {
      assert (0.0 / ITEM_HEIGHT as real).Floor == 0;
      assert (-380.0 / ITEM_HEIGHT as real).Floor == -10;
    }
    l.Update(0.0, 380.0, 12);
    assert l.renders == 1;
  }
}
