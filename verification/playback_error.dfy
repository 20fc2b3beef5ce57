/** The renderer's single place for playback failures: it stops playback,
    records an observable error with a message built from the reason and the
    original error, and optionally advances the queue. The playback signals and
    the calls it makes are the fields of a class. */
module PlaybackError {
  import opened JsValues

  const AUDIO_ERROR: string := "audio_error"
  const STREAM_STALLED: string := "stream_stalled"
  const PLAYBACK_FAILED: string := "playback_failed"
  const DEFAULT_MESSAGE: string := "Playback error"

  /** An error object, by the one property the handler reads. */
  datatype ErrorObj = ErrorObj(message: Option<string>)

  /** The `shouldAdvance` argument: left out (`undefined`, so the default `true` applies),
      `null`, or a boolean. */
  datatype Advance = Omitted | Null | Given(b: bool)

  /** `shouldAdvance` after its default, as a condition: only an omitted or a true argument
      is truthy. */
  predicate AdvanceOn(a: Advance) {
    a.Omitted? || a == Given(true)
  }

  /** One call of `setError(reason, message, context)`; a context of `None` is `undefined`. */
  datatype Report = Report(reason: string, message: string, context: Option<Option<string>>)

  /** `ERROR_MESSAGES[reason] || 'Playback error'`. */
  function BaseMessage(reason: string): (m: string)
    ensures reason == AUDIO_ERROR ==> m == "Audio error — skipping to next track"
    ensures reason == STREAM_STALLED ==> m == "Stream stalled — skipping to next"
    ensures reason == PLAYBACK_FAILED ==> m == "Playback failed"
    ensures reason != AUDIO_ERROR && reason != STREAM_STALLED && reason != PLAYBACK_FAILED ==> m == DEFAULT_MESSAGE
  {
    if reason == AUDIO_ERROR then "Audio error — skipping to next track"
    else if reason == STREAM_STALLED then "Stream stalled — skipping to next"
    else if reason == PLAYBACK_FAILED then "Playback failed"
    else DEFAULT_MESSAGE
  }

  /** The message: the table text, then `: ` and the error's message iff that is non-empty. */
  function MessageOf(reason: string, error: Option<ErrorObj>): (m: string)
    ensures StartsWith(m, BaseMessage(reason))
    ensures (error.Some? && Truthy(error.value.message)) <==> |m| > |BaseMessage(reason)|
    ensures error.Some? && Truthy(error.value.message) ==> m[|BaseMessage(reason)|..] == ": " + error.value.message.value
  {
    var detail := if error.Some? && Truthy(error.value.message) then ": " + error.value.message.value else "";
    BaseMessage(reason) + detail
  }

  /** The context object: `{ error: error.message }` iff an error object was passed. */
  function ContextOf(error: Option<ErrorObj>): (c: Option<Option<string>>)
    ensures c.Some? <==> error.Some?
    ensures error.Some? ==> c.value == error.value.message
  {
    match error
    case Some(e) => Some(e.message)
    case None => None
  }

  /** Different known reasons without detail give different messages, and none of them is
      the default. */
  lemma {:induction false} KnownReasonsAreDistinguished(r1: string, r2: string)
    requires r1 in {AUDIO_ERROR, STREAM_STALLED, PLAYBACK_FAILED}
    requires r1 != r2
    ensures MessageOf(r1, None) != MessageOf(r2, None)
  {
    var m1 := BaseMessage(r1);
    var m2 := BaseMessage(r2);
    assert m1[0] != DEFAULT_MESSAGE[0] || m1[1] != DEFAULT_MESSAGE[1] || |m1| != |DEFAULT_MESSAGE|;
    if r2 in {AUDIO_ERROR, STREAM_STALLED, PLAYBACK_FAILED} {
      assert m1[0] != m2[0] || |m1| != |m2|;
    }
  }

  /** The playback signals and the side effects of the handler. */
  class Signals {
    var isPlaying: bool
    var isLoading: bool
    var reports: seq<Report>     // calls of `setError`
    var advances: nat            // calls of `playNext`
    var presenceClears: nat      // calls of `clearDiscordPresence`

    constructor (playing: bool, loading: bool)
      ensures isPlaying == playing && isLoading == loading
      ensures reports == [] && advances == 0 && presenceClears == 0
    {
      isPlaying := playing;
      isLoading := loading;
      reports := [];
      advances := 0;
      presenceClears := 0;
    }

    /** `handlePlaybackError`: `shouldAdvance` defaults to true when left out; the queue
        advances iff it holds and a `playNext` was given. */
    method HandlePlaybackError(reason: string, error: Option<ErrorObj>, hasPlayNext: bool, shouldAdvance: Advance)
      modifies this
      ensures !isPlaying && !isLoading
      ensures presenceClears == old(presenceClears) + 1
      ensures reports == old(reports) + [Report(reason, MessageOf(reason, error), ContextOf(error))]
      ensures advances == old(advances) + (if AdvanceOn(shouldAdvance) && hasPlayNext then 1 else 0)
    {
      isPlaying := false;
      isLoading := false;
      presenceClears := presenceClears + 1;
      var detail := if error.Some? && Truthy(error.value.message) then ": " + error.value.message.value else "";
      var message := BaseMessage(reason) + detail;
      reports := reports + [Report(reason, message, ContextOf(error))];
      if AdvanceOn(shouldAdvance) && hasPlayNext {
        advances := advances + 1;
      }
    }
  }

  /** An audio error with a message advances by default; a stall with `shouldAdvance: false`
      does not, and carries no context; neither does a `shouldAdvance: null`. */
  method HandlerScenario()
  {
    var s := new Signals(true, false);
    s.HandlePlaybackError(AUDIO_ERROR, Some(ErrorObj(Some("decode"))), true, Omitted);
    assert s.reports[0].message == "Audio error — skipping to next track: decode";
    assert s.advances == 1 && !s.isPlaying;
    s.HandlePlaybackError(STREAM_STALLED, None, true, Given(false));
    assert s.reports[1] == Report(STREAM_STALLED, "Stream stalled — skipping to next", None);
    assert s.advances == 1;
    s.HandlePlaybackError(PLAYBACK_FAILED, None, true, Null);
    assert s.advances == 1;
  }
}
