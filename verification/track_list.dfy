/** The track list: which rows it renders, whether it virtualises, the window
    of rows a long list keeps in the document while scrolling, and which row is
    marked as playing. DOM geometry (how far the list is scrolled above the
    viewport, the viewport's height) is passed in; the search for the
    scrolling ancestor and the event listeners are left out. */
module TrackList {
  import opened JsValues
  import Constants

  /** A row of the list, by the fields the list itself reads. */
  datatype Row = Row(id: Option<string>, plays: Option<int>)

  /** A window of row indices, `start` inclusive and `end` exclusive. */
  datatype Range = Range(start: int, end: int)

  function Max(a: int, b: int): int { if a >= b then a else b }
  function Min(a: int, b: int): int { if a <= b then a else b }

  /** `Math.floor(x / h)`. */
  function FloorDiv(x: real, h: nat): int
    requires h > 0
  {
    (x / h as real).Floor
  }

  /** `Math.ceil(x / h)`. */
  function CeilDiv(x: real, h: nat): int
    requires h > 0
  {
    -((-x / h as real).Floor)
  }

  /** The window for items of height `h` with `overscan` extra items on each side, when the
      list's top is `offset` pixels above the viewport and the viewport is `viewport` high
      (shared by the track list and the import dialog's list). */
  function Window(offset: real, viewport: real, len: nat, h: nat, overscan: nat): (r: Range)
    requires h > 0
    ensures 0 <= r.start && r.end <= len
    ensures r.end - r.start <= CeilDiv(viewport, h) + 2 * overscan
  {
    var start := Max(0, FloorDiv(offset, h) - overscan);
    Range(start, Min(len, start + CeilDiv(viewport, h) + 2 * overscan))
  }

  /** Every item that shows in the viewport, even partly, is inside the window (the overscan
      covers the last, partly shown item). */
  lemma {:induction false} VisibleItemsAreInWindow(offset: real, viewport: real, len: nat, h: nat, overscan: nat, i: int)
    requires h > 0 && overscan > 0 && 0 <= i < len
    requires (i + 1) as real > offset / h as real
    requires (i as real) < offset / h as real + viewport / h as real
    ensures Window(offset, viewport, len, h, overscan).start <= i < Window(offset, viewport, len, h, overscan).end
  {
    var x := offset / h as real;
    var y := viewport / h as real;
    assert -viewport / h as real == -y;
    assert x.Floor as real <= x < x.Floor as real + 1.0;
    assert (-y).Floor as real <= -y;
    assert i >= x.Floor;
    assert i <= x.Floor + CeilDiv(viewport, h);
    var w := Window(offset, viewport, len, h, overscan);
    assert w.start == Max(0, x.Floor - overscan);
    assert w.end == Min(len, w.start + CeilDiv(viewport, h) + 2 * overscan);
  }

  /** `Array.from({ length: end - start }, (_, j) => start + j)`: a negative length gives none. */
  function Indices(r: Range): (s: seq<int>)
    ensures |s| == Max(0, r.end - r.start)
    ensures forall j :: 0 <= j < |s| ==> s[j] == r.start + j
  {
    seq(Max(0, r.end - r.start), j => r.start + j)
  }

  /** The indices of a window computed for a list all name rows of that list. */
  lemma WindowIndicesInBounds(offset: real, viewport: real, len: nat, h: nat, overscan: nat)
    requires h > 0
    ensures forall i :: i in Indices(Window(offset, viewport, len, h, overscan)) ==> 0 <= i < len
  {
  }

  /** Row `i` sits `i * 56` pixels from the top of a container `len * 56` high, so a row of the
      list lies inside it. */
  function RowOffset(i: nat): (y: nat)
    ensures y + Constants.ROW_HEIGHT == (i + 1) * Constants.ROW_HEIGHT
  {
    i * Constants.ROW_HEIGHT
  }

  function TotalHeight(len: nat): nat {
    len * Constants.ROW_HEIGHT
  }

  lemma RowsFitInContainer(i: nat, len: nat)
    requires i < len
    ensures RowOffset(i) + Constants.ROW_HEIGHT <= TotalHeight(len)
  {
  }

  /** What the list renders: nothing, every row, or the virtualised window. */
  datatype Rendering = Nothing | Full(rows: seq<nat>) | Virtual

  function Choose(tracks: Option<seq<Row>>): (r: Rendering)
    ensures r.Nothing? <==> tracks.None? || |tracks.value| == 0
    ensures r.Full? <==> tracks.Some? && 0 < |tracks.value| <= Constants.VIRTUALIZE_THRESHOLD
    ensures r.Full? ==> |r.rows| == |tracks.value| && forall i :: 0 <= i < |r.rows| ==> r.rows[i] == i
    ensures r.Virtual? <==> tracks.Some? && |tracks.value| > Constants.VIRTUALIZE_THRESHOLD
  {
    if tracks.None? || |tracks.value| == 0 then Nothing
    else if |tracks.value| <= Constants.VIRTUALIZE_THRESHOLD then Full(seq(|tracks.value|, i => i))
    else Virtual
  }

  /** The header's class: the plays column is shown when some row has a truthy play count. */
  function HeaderClass(tracks: seq<Row>): (c: string)
    ensures c == "track-list-header has-plays" <==> exists i :: 0 <= i < |tracks| && TruthyInt(tracks[i].plays)
    ensures c == "track-list-header" <==> forall i :: 0 <= i < |tracks| ==> !TruthyInt(tracks[i].plays)
  {
    if exists i :: 0 <= i < |tracks| && TruthyInt(tracks[i].plays) then "track-list-header has-plays"
    else "track-list-header"
  }

  /** `queue[queueIndex]`, `undefined` outside the queue. */
  function CurrentTrack(queue: seq<Row>, index: int): (t: Option<Row>)
    ensures t.Some? <==> 0 <= index < |queue|
    ensures t.Some? ==> t.value == queue[index]
  {
    if 0 <= index < |queue| then Some(queue[index]) else None
  }

  /** `currentTrack?.id === track.id && playing`. */
  predicate IsRowPlaying(current: Option<Row>, row: Row, playing: bool) {
    (if current.Some? then current.value.id else None) == row.id && playing
  }

  /** In a list whose ids are distinct, at most one row is marked as playing, and none is
      while playback is paused. */
  lemma AtMostOneRowPlaying(tracks: seq<Row>, current: Option<Row>, playing: bool)
    requires forall a, b :: 0 <= a < b < |tracks| ==> tracks[a].id != tracks[b].id
    ensures forall i, j ::
      (0 <= i < |tracks| && 0 <= j < |tracks| &&
       IsRowPlaying(current, tracks[i], playing) && IsRowPlaying(current, tracks[j], playing)) ==> i == j
    ensures !playing ==> forall i :: 0 <= i < |tracks| ==> !IsRowPlaying(current, tracks[i], playing)
  {
  }

  /** The row of the current track is marked exactly while playing. */
  lemma CurrentRowPlaysWhilePlaying(queue: seq<Row>, index: int, row: Row, playing: bool)
    requires 0 <= index < |queue| && queue[index].id == row.id
    ensures IsRowPlaying(CurrentTrack(queue, index), row, playing) <==> playing
  {
  }

  /** The `update` handler reads a window for the current list length and replaces the range
      state only when the window differs, which is when the list renders again. */
  class VirtualList {
    var range: Range
    var renders: nat

    constructor ()
      ensures range == Range(0, 40) && renders == 0
    {
      range := Range(0, 40);
      renders := 0;
    }

    method Update(offset: real, viewport: real, len: nat)
      modifies this
      ensures range == Window(offset, viewport, len, Constants.ROW_HEIGHT, Constants.VIRTUALIZE_OVERSCAN)
      ensures renders == old(renders) + (if old(range) == range then 0 else 1)
      ensures forall i :: i in Indices(range) ==> 0 <= i < len
    {
      var start := Max(0, FloorDiv(offset, Constants.ROW_HEIGHT) - Constants.VIRTUALIZE_OVERSCAN);
      var visible := CeilDiv(viewport, Constants.ROW_HEIGHT) + 2 * Constants.VIRTUALIZE_OVERSCAN;
      var end := Min(len, start + visible);
      if range.start != start || range.end != end {
        range := Range(start, end);
        renders := renders + 1;
      }
    }
  }

  // ─── The stale window ───

  /** Rendering the window as written: `tracks[i].id` for every index of the range state, which
      throws when an index is past the end of the list. */
  function RenderAsWritten(tracks: seq<Row>, r: Range): (res: Result<seq<int>, string>)
    ensures res.Ok? <==> forall i :: i in Indices(r) ==> 0 <= i < |tracks|
    ensures res.Ok? ==> res.value == Indices(r)
  {
    if forall i :: i in Indices(r) ==> 0 <= i < |tracks| then Ok(Indices(r)) else Err("TypeError")
  }

  /** The range state is recomputed only after the list has rendered with a new length, so a
      list that shrinks by one track while scrolled to its end renders once with the old range:
      100 tracks at 5040 pixels down a 560-pixel viewport give the window 80..100, and the
      99-track list then looks up row 99. */
  lemma StaleWindowOverruns()
    ensures Window(5040.0, 560.0, 100, Constants.ROW_HEIGHT, Constants.VIRTUALIZE_OVERSCAN) == Range(80, 100)
    ensures RenderAsWritten(seq(99, i => Row(Some("t"), None)), Range(80, 100)).Err?
  {
    assert (5040.0 / 56 as real).Floor == 90;
    assert (-560.0 / 56 as real).Floor == -10;
    assert Indices(Range(80, 100))[19] == 99;
    assert 99 in Indices(Range(80, 100));
  }

  /** The window's rows that exist in the current list, as the import dialog's list skips
      indices without an item. */
  function RenderedRows(len: nat, r: Range): (rows: seq<int>)
    ensures forall i :: i in rows ==> 0 <= i < len
    ensures forall i :: i in Indices(r) && 0 <= i < len ==> i in rows
    ensures forall k :: 0 <= k < |rows| ==> rows[k] in Indices(r)
    ensures forall a, b :: 0 <= a < b < |rows| ==> rows[a] < rows[b]
    decreases |Indices(r)|
  {
    if |Indices(r)| == 0 then []
    else
      var rest := RenderedRows(len, Range(r.start + 1, r.end));
      assert Indices(r) == [r.start] + Indices(Range(r.start + 1, r.end));
      assert forall k :: 0 <= k < |rest| ==> r.start < rest[k];
      (if 0 <= r.start < len then [r.start] else []) + rest
  }

  /** When the range fits the list, guarding the lookup renders the same rows as before. */
  lemma {:induction false} RenderedRowsOfFittingRange(len: nat, r: Range)
    requires forall i :: i in Indices(r) ==> 0 <= i < len
    ensures RenderedRows(len, r) == Indices(r)
    decreases |Indices(r)|
  {
    if |Indices(r)| > 0 {
      var r' := Range(r.start + 1, r.end);
      assert Indices(r) == [r.start] + Indices(r');
      forall i | i in Indices(r')
        ensures 0 <= i < len
      {
        assert i in Indices(r);
      }
      RenderedRowsOfFittingRange(len, r');
      assert r.start in Indices(r);
      assert RenderedRows(len, r) == [r.start] + RenderedRows(len, r');
    } else {
      assert Indices(r) == [];
    }
  }

  /** A long list scrolled to its end loses a track: the as-written render throws; the guarded one
      drops the missing row; the next update brings the window back inside the list. */
  method StaleWindowScenario()
  {
    var v := new VirtualList();
    v.Update(5040.0, 560.0, 100);
    StaleWindowOverruns();
    assert v.range == Range(80, 100) && v.renders == 1;
    var rows := RenderedRows(99, v.range);
    assert 99 !in rows;
    v.Update(5040.0, 560.0, 99);
    assert v.range == Range(80, 99);
  }
}
