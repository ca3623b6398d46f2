/**
 * The end-of-cycle pacing decision. A cycle that starts at time t under a
 * period P should not end before t + P: if it finishes early the loop sleeps
 * for the rest, and if it overran it goes on at once, without catching up.
 * Times are integers in nanoseconds.
 */
module Pacing {
  import opened Wrappers

  /**
   * The sleep taken at the end of a cycle due to wake at `next`, with the
   * clock reading `now`: a strictly positive sleep that ends exactly at
   * `next` when the cycle finished early, and none otherwise.
   */
  function SleepFor(next: int, now: int): (r: Option<nat>)
    ensures r.Some? <==> now < next
    ensures r.Some? ==> r.value > 0 && now + r.value == next
  {
    if now < next then Some(next - now) else None
  }

  /** After the pacing step the next cycle starts at the later of `next` and `now`: no catch-up. */
  lemma NextCycleStart(next: int, now: int)
    ensures (match SleepFor(next, now) case Some(d) => now + d case None => now)
            == if now < next then next else now
  {
  }

  /** What the `time.sleep` call on the source's pacing line does with its argument. */
  datatype SleepCall = NoSleep | Sleep(duration: nat) | NegativeSleep(negative: int)

  /**
   * The pacing step as written: the clock is read once for the test
   * (`checkedAt`) and once more for the duration (`sleptAt`). A negative
   * duration makes `time.sleep` raise ValueError, which nothing catches.
   */
  function SleepAsWritten(next: int, checkedAt: int, sleptAt: int): (r: SleepCall)
    ensures r.NegativeSleep? <==> checkedAt < next < sleptAt
    ensures r.NoSleep? <==> next <= checkedAt
  {
    if checkedAt < next then
      if next - sleptAt >= 0 then Sleep(next - sleptAt) else NegativeSleep(next - sleptAt)
    else
      NoSleep
  }

  /** The clock passing `next` between the two readings gives a negative sleep. */
  lemma SleepAsWrittenCanRaise()
    ensures SleepAsWritten(1_000_000_000, 999_999_999, 1_000_000_001) == NegativeSleep(-1)
  {
  }

  /** With a single clock reading the written step and SleepFor agree, and never raise. */
  lemma {:induction false} SleepAsWrittenOneReading(next: int, now: int)
    ensures !SleepAsWritten(next, now, now).NegativeSleep?
    ensures SleepFor(next, now).Some? <==> SleepAsWritten(next, now, now).Sleep?
    ensures SleepFor(next, now).Some? ==> SleepAsWritten(next, now, now).duration == SleepFor(next, now).value
  {
  }
}
