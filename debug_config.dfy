/**
 * The build switch that accelerates the game clock, and the constants and the
 * duration scaling derived from it. Both builds are modelled: every constant
 * is a function of the switch, and `DEBUG_MODE` picks the one the app ships.
 */
module DebugConfig {
  import opened KotlinMath

  /** The app is built with the accelerated clock. */
  const DEBUG_MODE: bool := true

  /** One real minute is one game hour in the debug build. */
  function TimeMultiplierFor(debug: bool): (r: nat)
    ensures r >= 1
    ensures r == 60 <==> debug
    ensures !debug ==> r == 1
  {
    if debug then 60 else 1
  }

  const TIME_MULTIPLIER: nat := TimeMultiplierFor(DEBUG_MODE)

  function NotificationIntervalMinutesFor(debug: bool): (r: nat)
    ensures debug ==> r == 1
    ensures !debug ==> r == 15
  {
    if debug then 1 else 15
  }

  const NOTIFICATION_INTERVAL_MINUTES: nat := NotificationIntervalMinutesFor(DEBUG_MODE)

  function SnackbarDurationMsFor(debug: bool): (r: nat)
    ensures debug ==> r == 8000
    ensures !debug ==> r == 5000
  {
    if debug then 8000 else 5000
  }

  const SNACKBAR_DURATION_MS: nat := SnackbarDurationMsFor(DEBUG_MODE)

  /**
   * `getAdjustedDuration`: a production duration in milliseconds, scaled down
   * by the time multiplier (Long division) in the debug build.
   */
  function AdjustedDurationFor(debug: bool, normalDurationMs: int): (r: int)
    ensures !debug ==> r == normalDurationMs
    ensures debug && normalDurationMs >= 0 ==> r == normalDurationMs / 60
    ensures normalDurationMs >= 0 ==> 0 <= r <= normalDurationMs
    ensures normalDurationMs <= 0 ==> normalDurationMs <= r <= 0
  {
    if debug then TruncDiv(normalDurationMs, TimeMultiplierFor(debug)) else normalDurationMs
  }

  /** The scaling of the shipped build. */
  function AdjustedDuration(normalDurationMs: int): (r: int)
    ensures normalDurationMs >= 0 ==> 0 <= r <= normalDurationMs
    ensures r == AdjustedDurationFor(DEBUG_MODE, normalDurationMs)
  {
    AdjustedDurationFor(DEBUG_MODE, normalDurationMs)
  }

  /** With the shipped switch, the derived constants take their accelerated values. */
  lemma ShippedConstants()
    ensures TIME_MULTIPLIER == 60
    ensures NOTIFICATION_INTERVAL_MINUTES == 1
    ensures SNACKBAR_DURATION_MS == 8000
    ensures forall d: int :: d >= 0 ==> AdjustedDuration(d) == d / 60
  {
  }
}
