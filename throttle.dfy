/** The throttle: how long a live fetch waits before calling the quote source,
    from the time since this ticker was last fetched and the time since the
    last request of any ticker. Times are seconds. */
module Throttle {

  /** `_max_delay`: the cap on the normal-mode global delay. */
  const MaxDelay: real := 0.3
  /** The cap on the fast-mode global delay. */
  const FastGlobalCap: real := 0.1

  /** The per-ticker spacing the throttle aims for. */
  function MinTickerSpacing(fast: bool): real {
    if fast then 0.1 else 0.5
  }

  /** The spacing between any two requests the throttle aims for. */
  function MinGlobalSpacing(fast: bool): real {
    if fast then 0.05 else 0.2
  }

  /** The cap on the combined delay. */
  function DelayCap(fast: bool): real {
    if fast then 0.3 else 1.0
  }

  /** The range of `random.uniform` used as jitter. */
  predicate JitterInRange(fast: bool, jitter: real) {
    if fast then 0.01 <= jitter <= 0.02 else 0.01 <= jitter <= 0.05
  }

  function Max(a: real, b: real): real {
    if a >= b then a else b
  }

  function Min(a: real, b: real): real {
    if a <= b then a else b
  }

  function TickerDelay(fast: bool, sinceTicker: real): real {
    Max(0.0, MinTickerSpacing(fast) - sinceTicker)
  }

  function GlobalDelay(fast: bool, sinceLast: real, jitter: real): real {
    if sinceLast < MinGlobalSpacing(fast) then
      Min(if fast then FastGlobalCap else MaxDelay, MinGlobalSpacing(fast) - sinceLast + jitter)
    else
      0.0
  }

  /** The delay before a live fetch: the larger (never the sum) of the
      per-ticker and the global delay, capped. It is never negative and never
      above the cap; it is zero exactly when both spacings are already met;
      and when no clock reading goes backwards it is long enough to meet both
      spacings. */
  function Delay(fast: bool, sinceTicker: real, sinceLast: real, jitter: real): (d: real)
    requires JitterInRange(fast, jitter)
    ensures 0.0 <= d <= DelayCap(fast)
    ensures d == 0.0 <==> sinceTicker >= MinTickerSpacing(fast) && sinceLast >= MinGlobalSpacing(fast)
    ensures sinceTicker >= 0.0 && sinceLast >= 0.0 ==>
      sinceTicker + d >= MinTickerSpacing(fast) && sinceLast + d >= MinGlobalSpacing(fast)
  {
    Min(Max(TickerDelay(fast, sinceTicker), GlobalDelay(fast, sinceLast, jitter)), DelayCap(fast))
  }

  /** While the clock does not go backwards the cap never takes effect: the
      delay is exactly the larger of the two delays and is at most the
      per-ticker spacing (0.5 s, or 0.1 s in fast mode), well under the caps
      of 1.0 s and 0.3 s. */
  lemma CapInactiveOnMonotoneClock(fast: bool, sinceTicker: real, sinceLast: real, jitter: real)
    requires JitterInRange(fast, jitter)
    requires sinceTicker >= 0.0
    ensures Delay(fast, sinceTicker, sinceLast, jitter)
         == Max(TickerDelay(fast, sinceTicker), GlobalDelay(fast, sinceLast, jitter))
    ensures Delay(fast, sinceTicker, sinceLast, jitter) <= MinTickerSpacing(fast)
  {
  }

  /** The combined delay is the larger of the two, not their sum: when both
      are due, it is strictly less than their sum. */
  lemma DelayIsNotSum(fast: bool, sinceTicker: real, sinceLast: real, jitter: real)
    requires JitterInRange(fast, jitter)
    requires sinceTicker < MinTickerSpacing(fast) && sinceLast < MinGlobalSpacing(fast)
    ensures Delay(fast, sinceTicker, sinceLast, jitter)
          < TickerDelay(fast, sinceTicker) + GlobalDelay(fast, sinceLast, jitter)
  {
  }
}
