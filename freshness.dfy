/** The freshness test of the aggregation pipeline in `checkLocationMinutes`: the age of
    a document's newest reading is `(now - timestamp) / 60000` minutes, and the document
    is fresh when that age is below the window. */
module Freshness {

  /** Milliseconds in a minute, the divisor of the pipeline's `$divide`. */
  const MS_PER_MINUTE: int := 60000

  /** Age in minutes of a reading taken at `timestamp`, seen at `now` (both in ms). */
  function AgeMinutes(now: int, timestamp: real): real
  {
    (now as real - timestamp) / MS_PER_MINUTE as real
  }

  /** The pipeline's `$match` on `{timestamp: {$lt: minutes}}` after the age projection. */
  predicate IsFresh(now: int, timestamp: real, minutes: int)
  {
    AgeMinutes(now, timestamp) < minutes as real
  }

  /** For timestamps in whole milliseconds, the fractional-minute test is the same as
      comparing the integer difference with the window in milliseconds. */
  lemma FreshIffWithinWindow(now: int, timestamp: int, minutes: int)
    ensures IsFresh(now, timestamp as real, minutes) <==> now - timestamp < minutes * MS_PER_MINUTE
  {
    var age := AgeMinutes(now, timestamp as real);
    assert age * 60000.0 == (now - timestamp) as real;
  }

  /** A timestamp in the future gives a negative age, which is fresh for any
      non-negative window. */
  lemma FutureTimestampIsFresh(now: int, timestamp: real, minutes: int)
    requires now as real < timestamp
    requires 0 <= minutes
    ensures IsFresh(now, timestamp, minutes)
    ensures AgeMinutes(now, timestamp) < 0.0
  {
  }

  /** Ages only grow: a reading that is stale at `now` is stale at every later instant. */
  lemma StaleStaysStale(now: int, later: int, timestamp: real, minutes: int)
    requires now <= later
    requires !IsFresh(now, timestamp, minutes)
    ensures !IsFresh(later, timestamp, minutes)
  {
  }
}
