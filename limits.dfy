/** Arithmetic shared by both tracker variants. Accumulated time is kept in
    integer milliseconds and limits in whole minutes; an effective limit is the
    base limit plus every extension, converted to milliseconds. */
module Limits {

  /** A value that may be absent (a JavaScript property that is `undefined`). */
  datatype Option<+T> = None | Some(value: T) {

    /** The value, or `default` when absent. For a `default` of 0 this is the
        source's `x || 0`: a present 0 and an absent value both give 0. */
    function GetOr(default: T): T {
      match this
      case Some(v) => v
      case None => default
    }
  }

  const MsPerMinute: int := 60000

  /** `(initialLimit + totalExtendedTime) * 60 * 1000`. */
  function EffectiveLimitMs(initialLimit: int, totalExtendedTime: int): int {
    (initialLimit + totalExtendedTime) * MsPerMinute
  }

  /** The delay an alarm named after a site is created with. The source divides
      the time left by 60000 and arms only when the quotient is positive; here
      the delay stays in milliseconds, which has the same sign. */
  function AlarmDelay(limitMs: int, time: int): (d: Option<int>)
    ensures d.Some? <==> time < limitMs
    ensures d.Some? ==> d.value > 0 && time + d.value == limitMs
  {
    if limitMs - time > 0 then Some(limitMs - time) else None
  }

  /** The step from `previous` to `current` reaches `percentage` per cent of
      `limitMs`: previous < limitMs * percentage / 100 <= current. Both sides
      are scaled by 100 so that the comparison is exact. */
  predicate Crosses(previous: int, current: int, limitMs: int, percentage: int) {
    previous * 100 < limitMs * percentage <= current * 100
  }
}
