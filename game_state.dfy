/** Game phases and the fixed durations (src/core/game_state.py). */
module GameStates {
  import opened Wrappers

  datatype GameState = Idle | Countdown | RoundActive | RoundResult | GameOver

  /** Seconds a thumb gesture must be held to confirm start, quit or restart. */
  const GestureHoldDuration: real := 2.0
  /** Seconds of countdown before a round becomes active. */
  const CountdownDuration: real := 3.0
  /** Seconds the round result is shown. */
  const ResultDuration: real := 3.0

  /** `get_gesture_progress` (both game-logic variants): how far the held gesture is towards the hold duration. */
  function GestureProgress(start: Option<real>, now: real): (p: real)
    ensures start.None? ==> p == 0.0
    ensures start.Some? && now >= start.value ==> 0.0 <= p <= 1.0
    ensures start.Some? ==> (p == 1.0 <==> now - start.value >= GestureHoldDuration)
    ensures start.Some? && now - start.value < GestureHoldDuration ==> p == (now - start.value) / GestureHoldDuration
  {
    if start.None? then 0.0
    else
      var ratio := (now - start.value) / GestureHoldDuration;
      if ratio <= 1.0 then ratio else 1.0
  }
}
