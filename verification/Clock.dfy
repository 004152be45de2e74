/** Wall-clock time in nanoseconds, and the whole-second precision at which the API stores it. */
module Clock {
  import opened Wrappers

  const SECOND: int := 1_000_000_000
  const DEFAULT_POLL_INTERVAL: int := 300 * SECOND

  /** A date-time of section 5.6 of RFC 3339 written without a fraction. */
  function WholeSeconds(t: int): (r: int)
    ensures r <= t < r + SECOND && r % SECOND == 0
    ensures t % SECOND == 0 ==> r == t
  {
    t - t % SECOND
  }

  function Stored(t: Option<int>): Option<int> {
    match t
    case None => None
    case Some(v) => Some(WholeSeconds(v))
  }
}
