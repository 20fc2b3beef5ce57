/** The mobile client's audio-focus handling on Android: pause on a loss of
    focus, resume after a transient loss, lower the volume while another app
    ducks it, and restore it on regaining focus. The audio element is modelled
    by its volume and paused flag; the plugin's event is a parameter. */
module AudioFocus {

  /** The focus-change events the native side reports; anything else is `Other`. */
  datatype FocusEvent = Gain | Loss | LossTransient | Duck | Other(name: string)

  /** The handler's module state together with the audio element's volume and paused flag. */
  datatype Focus = Focus(wasPlayingBeforeLoss: bool, originalVolume: real, isDucked: bool, volume: real, paused: bool)

  const DUCK_FLOOR: real := 0.05
  const DUCK_FACTOR: real := 0.2

  /** `Math.max(0.05, v * 0.2)`. */
  function DuckedVolume(v: real): (d: real)
    ensures d >= DUCK_FLOOR
    ensures d == DUCK_FLOOR || d == v * DUCK_FACTOR
    ensures v * DUCK_FACTOR >= DUCK_FLOOR ==> d == v * DUCK_FACTOR
  {
    if DUCK_FLOOR >= v * DUCK_FACTOR then DUCK_FLOOR else v * DUCK_FACTOR
  }

  /** The effect of one `audioFocusChange` event on a present audio element. */
  function OnFocusChange(f: Focus, ev: FocusEvent): (g: Focus)
    ensures ev.Gain? ==>
      !g.isDucked && !g.wasPlayingBeforeLoss &&
      g.volume == (if f.isDucked then f.originalVolume else f.volume) &&
      g.paused == (f.paused && !f.wasPlayingBeforeLoss)
    ensures ev.Loss? ==> g == f.(wasPlayingBeforeLoss := false, paused := true)
    ensures ev.LossTransient? ==> g == f.(wasPlayingBeforeLoss := !f.paused, paused := true)
    ensures ev.Duck? ==>
      g.isDucked && g.volume >= DUCK_FLOOR &&
      g.originalVolume == (if f.isDucked then f.originalVolume else f.volume) &&
      g.volume == DuckedVolume(g.originalVolume) &&
      g.paused == f.paused && g.wasPlayingBeforeLoss == f.wasPlayingBeforeLoss
    ensures ev.Other? ==> g == f
  {
    match ev
    case Gain =>
      var f1 := if f.isDucked then f.(volume := f.originalVolume, isDucked := false) else f;
      if f1.wasPlayingBeforeLoss then f1.(paused := false, wasPlayingBeforeLoss := false) else f1
    case Loss =>
      f.(wasPlayingBeforeLoss := false, paused := true)
    case LossTransient =>
      f.(wasPlayingBeforeLoss := !f.paused, paused := true)
    case Duck =>
      var f1 := if !f.isDucked then f.(originalVolume := f.volume, isDucked := true) else f;
      f1.(volume := DuckedVolume(f1.originalVolume))
    case Other(_) => f
  }

  /** While ducked, the element plays at the ducked level of the saved volume. */
  predicate Ducked(f: Focus) {
    f.isDucked ==> f.volume == DuckedVolume(f.originalVolume)
  }

  /** A sequence of events, applied in order. */
  function Apply(f: Focus, evs: seq<FocusEvent>): (g: Focus)
    ensures (forall i :: 0 <= i < |evs| ==> evs[i].Other?) ==> g == f
    ensures Ducked(f) ==> Ducked(g)
    decreases |evs|
  {
    if |evs| == 0 then f else OnFocusChange(Apply(f, evs[..|evs| - 1]), evs[|evs| - 1])
  }

  function Ducks(n: nat): (evs: seq<FocusEvent>)
    ensures |evs| == n && forall i :: 0 <= i < n ==> evs[i] == Duck
  {
    seq(n, i => Duck)
  }

  /** However many ducks arrive, only the first saves the volume: the saved volume is the one
      before ducking, and the element stays at the ducked level. */
  lemma {:induction false} RepeatedDucksKeepOriginal(f: Focus, n: nat)
    requires !f.isDucked && n >= 1
    ensures Apply(f, Ducks(n)).isDucked
    ensures Apply(f, Ducks(n)).originalVolume == f.volume
    ensures Apply(f, Ducks(n)).volume == DuckedVolume(f.volume)
    ensures Apply(f, Ducks(n)).paused == f.paused
  {
    assert Ducks(n)[..n - 1] == Ducks(n - 1);
    if n == 1 {
      assert Ducks(0) == [];
    } else {
      RepeatedDucksKeepOriginal(f, n - 1);
    }
  }

  /** Any number of ducks followed by regaining focus restores the volume from before ducking. */
  lemma {:induction false} DucksThenGainRestoreVolume(f: Focus, n: nat)
    requires !f.isDucked && n >= 1
    ensures Apply(f, Ducks(n) + [Gain]).volume == f.volume
    ensures !Apply(f, Ducks(n) + [Gain]).isDucked
  {
    assert (Ducks(n) + [Gain])[..n] == Ducks(n);
    RepeatedDucksKeepOriginal(f, n);
  }

  /** A transient loss while playing, then regaining focus, resumes playback; a permanent loss
      does not. */
  lemma TransientLossResumes(f: Focus)
    requires !f.paused
    ensures !Apply(f, [LossTransient, Gain]).paused
    ensures Apply(f, [Loss, Gain]).paused
  {
    assert [LossTransient, Gain][..1] == [LossTransient];
    assert [Loss, Gain][..1] == [Loss];
  }

  class Handler {
    var wasPlayingBeforeLoss: bool
    var originalVolume: real
    var isDucked: bool
    var volume: real       // `audio.volume`
    var paused: bool       // `audio.paused`

    function State(): Focus
      reads this
    {
      Focus(wasPlayingBeforeLoss, originalVolume, isDucked, volume, paused)
    }

    constructor (v: real, isPaused: bool)
      ensures State() == Focus(false, 1.0, false, v, isPaused)
    {
      wasPlayingBeforeLoss := false;
      originalVolume := 1.0;
      isDucked := false;
      volume := v;
      paused := isPaused;
    }

    /** The `audioFocusChange` listener; without an audio element nothing changes. */
    method OnAudioFocusChange(hasAudio: bool, ev: FocusEvent)
      modifies this
      ensures hasAudio ==> State() == OnFocusChange(old(State()), ev)
      ensures !hasAudio ==> State() == old(State())
    {
      if !hasAudio {
        return;
      }
      match ev {
        case Gain =>
          if isDucked {
            volume := originalVolume;
            isDucked := false;
          }
          if wasPlayingBeforeLoss {
            paused := false;
            wasPlayingBeforeLoss := false;
          }
        case Loss =>
          wasPlayingBeforeLoss := false;
          if !paused {
            paused := true;
          }
        case LossTransient =>
          wasPlayingBeforeLoss := !paused;
          if !paused {
            paused := true;
          }
        case Duck =>
          if !isDucked {
            originalVolume := volume;
            isDucked := true;
          }
          volume := if DUCK_FLOOR >= originalVolume * DUCK_FACTOR then DUCK_FLOOR else originalVolume * DUCK_FACTOR;
        case Other(_) =>
      }
    }
  }

  /** Two ducks and a gain leave the volume where it was. */
  method DuckScenario()
  {
    var h := new Handler(0.8, false);
    h.OnAudioFocusChange(true, Duck);
    assert h.volume == 0.16;
    h.OnAudioFocusChange(true, Duck);
    assert h.originalVolume == 0.8;
    h.OnAudioFocusChange(true, Gain);
    assert h.volume == 0.8 && !h.isDucked;
  }
}
