/** `withRetry`: a bounded loop of attempts with a per-attempt delay table. The
    attempted function is a parameter from the attempt index to its outcome, the
    optional `onError` callback is a flag, and the timers are the list of waits
    taken. */
module Retry {
  import opened JsValues

  const DEFAULT_MAX_RETRIES: int := 3
  const DEFAULT_DELAYS: seq<int> := [1000, 3000, 8000]

  /** The wait after failed attempt `i`: `delays[i] ?? delays[delays.length - 1]`;
      `None` (a zero timeout) when the table is empty. */
  function Delay(delays: seq<int>, i: nat): (d: Option<int>)
    ensures i < |delays| ==> d == Some(delays[i])
    ensures i >= |delays| && |delays| > 0 ==> d == Some(delays[|delays| - 1])
    ensures d.None? <==> delays == []
  {
    if i < |delays| then Some(delays[i])
    else if |delays| > 0 then Some(delays[|delays| - 1])
    else None
  }

  /** Runs `fn` for attempts 0, 1, 2, … until one succeeds or `maxRetries` attempts have
      failed. `Ok(None)` is the `undefined` returned when no attempt is made. */
  method WithRetry<V, E>(fn: nat -> Result<V, E>, maxRetries: int, delays: seq<int>, hasOnError: bool)
    returns (r: Result<Option<V>, E>, calls: seq<nat>, reports: seq<(E, nat)>, waits: seq<Option<int>>)
    ensures forall i :: 0 <= i < |calls| ==> calls[i] == i
    ensures maxRetries <= 0 ==> r == Ok(None) && calls == [] && reports == [] && waits == []
    ensures maxRetries > 0 ==> 1 <= |calls| <= maxRetries && |waits| == |calls| - 1
    ensures forall i :: 0 <= i < |calls| - 1 ==> fn(i).Err?
    ensures maxRetries > 0 && r.Ok? ==> fn(|calls| - 1).Ok? && r.value == Some(fn(|calls| - 1).value)
    ensures r.Err? ==> |calls| == maxRetries && fn(|calls| - 1).Err? && r.error == fn(|calls| - 1).error
    ensures maxRetries > 0 ==> (r.Ok? <==> exists i :: 0 <= i < maxRetries && fn(i).Ok?)
    ensures hasOnError ==> |reports| == |calls| - (if r.Ok? && |calls| > 0 then 1 else 0)
    ensures !hasOnError ==> reports == []
    ensures forall i :: 0 <= i < |reports| ==> fn(i).Err? && reports[i] == (fn(i).error, i)
    ensures forall i :: 0 <= i < |waits| ==> waits[i] == Delay(delays, i)
  {
    calls, reports, waits := [], [], [];
    var attempt := 0;
    while attempt < maxRetries
      invariant 0 <= attempt && (maxRetries > 0 ==> attempt < maxRetries)
      invariant maxRetries <= 0 ==> attempt == 0
      invariant |calls| == attempt && forall i :: 0 <= i < attempt ==> calls[i] == i
      invariant forall i :: 0 <= i < attempt ==> fn(i).Err?
      invariant hasOnError ==> |reports| == attempt
      invariant !hasOnError ==> reports == []
      invariant forall i :: 0 <= i < |reports| ==> fn(i).Err? && reports[i] == (fn(i).error, i)
      invariant |waits| == attempt
      invariant forall i :: 0 <= i < |waits| ==> waits[i] == Delay(delays, i)
    {
      calls := calls + [attempt];
      var outcome := fn(attempt);
      if outcome.Ok? {
        return Ok(Some(outcome.value)), calls, reports, waits;
      }
      if hasOnError {
        reports := reports + [(outcome.error, attempt)];
      }
      if attempt < maxRetries - 1 {
        waits := waits + [Delay(delays, attempt)];
      } else {
        return Err(outcome.error), calls, reports, waits;
      }
      attempt := attempt + 1;
    }
    r := Ok(None);
  }

  /** With the default table, the waits after the first three failures are 1, 3 and 8 seconds,
      and a one-entry table repeats its only delay. */
  lemma DelayTable()
    ensures Delay(DEFAULT_DELAYS, 0) == Some(1000) && Delay(DEFAULT_DELAYS, 1) == Some(3000)
    ensures Delay(DEFAULT_DELAYS, 2) == Some(8000) && Delay(DEFAULT_DELAYS, 7) == Some(8000)
    ensures Delay([10], 1) == Some(10)
  {
  }
}
