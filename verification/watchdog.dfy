/** The renderer's playback watchdog: on every interval tick it compares the
    audio position with the one seen at the previous tick, counts consecutive
    stalls, and after enough of them reports a stalled stream through the
    playback error handler. The interval timer is left out; a tick is a method
    call given what the audio element shows. */
module Watchdog {
  import opened JsValues
  import Constants
  import PlaybackError

  /** The watchdog's memory between ticks: the last position (-1 for none) and the stall count. */
  datatype WState = WState(lastTime: real, stallTicks: nat)

  const Reset: WState := WState(-1.0, 0)

  /** What a tick observes: whether playback is active (playing, not loading, an audio
      element present and not paused) and the current position. */
  datatype Obs = Obs(active: bool, ct: real)

  /** A tick counts as a stall when there is a previous position, the position has not moved,
      and it is past the start. */
  predicate IsStall(s: WState, ct: real) {
    s.lastTime >= 0.0 && ct == s.lastTime && ct > 0.0
  }

  /** One tick: the next state and whether the handler fires. */
  function Step(s: WState, o: Obs): (r: (WState, bool))
    requires s.stallTicks < Constants.WATCHDOG_STALL_TICKS
    ensures r.0.stallTicks < Constants.WATCHDOG_STALL_TICKS
    ensures !o.active ==> r == (Reset, false)
    ensures o.active ==> r.0.lastTime == o.ct
    ensures r.1 <==> o.active && IsStall(s, o.ct) && s.stallTicks + 1 == Constants.WATCHDOG_STALL_TICKS
    ensures o.active && IsStall(s, o.ct) && !r.1 ==> r.0.stallTicks == s.stallTicks + 1
    ensures o.active && (!IsStall(s, o.ct) || r.1) ==> r.0.stallTicks == 0
  {
    if !o.active then (Reset, false)
    else if IsStall(s, o.ct) then
      if s.stallTicks + 1 >= Constants.WATCHDOG_STALL_TICKS then (WState(o.ct, 0), true)
      else (WState(o.ct, s.stallTicks + 1), false)
    else (WState(o.ct, 0), false)
  }

  /** A run of ticks from `s`: the final state and how many times the handler fired. */
  function Run(s: WState, obs: seq<Obs>): (r: (WState, nat))
    requires s.stallTicks < Constants.WATCHDOG_STALL_TICKS
    ensures r.0.stallTicks < Constants.WATCHDOG_STALL_TICKS
    ensures r.1 <= |obs|
    decreases |obs|
  {
    if |obs| == 0 then (s, 0)
    else
      var prev := Run(s, obs[..|obs| - 1]);
      var next := Step(prev.0, obs[|obs| - 1]);
      (next.0, prev.1 + if next.1 then 1 else 0)
  }

  /** `n` ticks of active playback stuck at the same position. */
  function Stuck(ct: real, n: nat): (obs: seq<Obs>)
    ensures |obs| == n && forall i :: 0 <= i < n ==> obs[i] == Obs(true, ct)
  {
    seq(n, i => Obs(true, ct))
  }

  /** Playback stuck at a position past the start, watched from a reset state: the first tick
      records the position, and the handler then fires once every four further ticks. */
  lemma {:induction false} StuckPlaybackFiresEveryFourTicks(ct: real, n: nat)
    requires ct > 0.0 && n >= 1
    ensures Run(Reset, Stuck(ct, n)) == (WState(ct, (n - 1) % 4), (n - 1) / 4)
  {
    if n == 1 {
      assert Stuck(ct, 1)[..0] == [];
    } else {
      assert Stuck(ct, n)[..n - 1] == Stuck(ct, n - 1);
      StuckPlaybackFiresEveryFourTicks(ct, n - 1);
      var k := (n - 2) % 4;
      if k == 3 {
        assert (n - 1) % 4 == 0 && (n - 1) / 4 == (n - 2) / 4 + 1;
      } else {
        assert (n - 1) % 4 == k + 1 && (n - 1) / 4 == (n - 2) / 4;
      }
    }
  }

  /** An inactive tick anywhere wipes the memory: the stall count starts again. */
  lemma {:induction false} InactiveTickResets(s: WState, obs: seq<Obs>)
    requires s.stallTicks < Constants.WATCHDOG_STALL_TICKS
    requires |obs| >= 1 && !obs[|obs| - 1].active
    ensures Run(s, obs).0 == Reset
  {
  }

  class Watch {
    var lastTime: real
    var stallTicks: nat

    ghost predicate Valid()
      reads this
    {
      stallTicks < Constants.WATCHDOG_STALL_TICKS
    }

    constructor ()
      ensures Valid() && lastTime == -1.0 && stallTicks == 0
    {
      lastTime := -1.0;
      stallTicks := 0;
    }

    /** The interval's tick body. When it fires it reports `stream_stalled` and advances the
        queue if a `playNext` is given. */
    method Tick(signals: PlaybackError.Signals, hasAudio: bool, paused: bool, ct: real, hasPlayNext: bool)
      returns (fired: bool)
      requires Valid()
      modifies this, signals
      ensures Valid()
      ensures var active := old(signals.isPlaying) && !old(signals.isLoading) && hasAudio && !paused;
        (WState(lastTime, stallTicks), fired) == Step(WState(old(lastTime), old(stallTicks)), Obs(active, ct))
      ensures !fired ==>
        signals.isPlaying == old(signals.isPlaying) && signals.isLoading == old(signals.isLoading) &&
        signals.reports == old(signals.reports) && signals.advances == old(signals.advances) &&
        signals.presenceClears == old(signals.presenceClears)
      ensures fired ==>
        !signals.isPlaying && !signals.isLoading &&
        signals.reports == old(signals.reports) +
          [PlaybackError.Report(PlaybackError.STREAM_STALLED, PlaybackError.MessageOf(PlaybackError.STREAM_STALLED, None), None)] &&
        signals.advances == old(signals.advances) + (if hasPlayNext then 1 else 0) &&
        signals.presenceClears == old(signals.presenceClears) + 1
    {
      fired := false;
      if !signals.isPlaying || signals.isLoading || !hasAudio || paused {
        lastTime := -1.0;
        stallTicks := 0;
        return;
      }
      if lastTime >= 0.0 && ct == lastTime && ct > 0.0 {
        stallTicks := stallTicks + 1;
        if stallTicks >= Constants.WATCHDOG_STALL_TICKS {
          stallTicks := 0;
          lastTime := -1.0;
          signals.HandlePlaybackError(PlaybackError.STREAM_STALLED, None, hasPlayNext, PlaybackError.Omitted);
          fired := true;
        }
      } else {
        stallTicks := 0;
      }
      lastTime := ct;
    }
  }

  /** After the handler fires, playback is stopped, so the next tick is inactive and resets. */
  method FireThenResetScenario(ct: real)
    requires ct > 0.0
  {
    var signals := new PlaybackError.Signals(true, false);
    var w := new Watch();
    var f := w.Tick(signals, true, false, ct, true);
    f := w.Tick(signals, true, false, ct, true);
    f := w.Tick(signals, true, false, ct, true);
    f := w.Tick(signals, true, false, ct, true);
    assert !f && w.stallTicks == 3;
    f := w.Tick(signals, true, false, ct, true);
    assert f && signals.advances == 1 && w.stallTicks == 0 && w.lastTime == ct;
    f := w.Tick(signals, true, false, ct, true);
    assert !f && w.lastTime == -1.0;
  }
}
