/**
 * Wall-clock instants, Python's `datetime.timedelta`, and the elapsed-time
 * reading `get_time_delta` takes from them (request_engine.py:75-79).
 */
module Clock {

  const MicrosPerSecond: int := 1_000_000
  const SecondsPerDay: int := 86_400
  const MicrosPerMilli: int := 1_000

  /** A reading of `datetime.now()`: microseconds from an arbitrary epoch. */
  type Instant = int

  /** A `datetime.timedelta`, kept as its three stored components. */
  datatype TimeDelta = TimeDelta(days: int, seconds: int, microseconds: int)
  {
    /** The invariant every timedelta Python builds satisfies. */
    predicate Normalised()
    {
      0 <= seconds < SecondsPerDay && 0 <= microseconds < MicrosPerSecond
    }

    /** The span the three components denote together, in microseconds. */
    function TotalMicros(): int
    {
      (days * SecondsPerDay + seconds) * MicrosPerSecond + microseconds
    }
  }

  /** A positive multiple of a positive number is at least that number. */
  lemma {:induction false} MultipleAtLeast(n: int, b: int)
    requires 1 <= n && 0 < b
    ensures n * b >= b
  {
    if n > 1 {
      MultipleAtLeast(n - 1, b);
      assert n * b == (n - 1) * b + b;
    }
  }

  /** `a == q * b + r` with `0 <= r < b` fixes both the quotient and the remainder. */
  lemma DivModUnique(a: int, b: int, q: int, r: int)
    requires 0 < b && 0 <= r < b && a == q * b + r
    ensures a / b == q && a % b == r
  {
    var q', r' := a / b, a % b;
    assert q' * b + r' == a;
    if q' < q {
      assert (q - q') * b == q * b - q' * b;
      MultipleAtLeast(q - q', b);
    } else if q' > q {
      assert (q' - q) * b == q' * b - q * b;
      MultipleAtLeast(q' - q, b);
    }
  }

  /** The normalised timedelta spanning `us` microseconds (floor division, as Python does). */
  function FromMicros(us: int): (d: TimeDelta)
    ensures d.Normalised()
    ensures d.TotalMicros() == us
  {
    var s := us / MicrosPerSecond;
    TimeDelta(s / SecondsPerDay, s % SecondsPerDay, us % MicrosPerSecond)
  }

  /** A normalised timedelta is determined by its total span: FromMicros inverts TotalMicros. */
  lemma {:induction false} FromTotalMicros(d: TimeDelta)
    requires d.Normalised()
    ensures FromMicros(d.TotalMicros()) == d
  {
    var s := d.days * SecondsPerDay + d.seconds;
    DivModUnique(d.TotalMicros(), MicrosPerSecond, s, d.microseconds);
    DivModUnique(s, SecondsPerDay, d.days, d.seconds);
  }

  /** `end - start` on two datetimes. */
  function Elapsed(start: Instant, end: Instant): (d: TimeDelta)
    ensures d.Normalised()
    ensures d.TotalMicros() == end - start
  {
    FromMicros(end - start)
  }

  /**
   * `get_time_delta(start)` with the `datetime.now()` it reads passed in as
   * `now`: the microseconds component of the elapsed timedelta, floor-divided
   * by 1000.  Whole elapsed seconds and days do not contribute.
   */
  function GetTimeDelta(start: Instant, now: Instant): (ms: int)
    ensures 0 <= ms < MicrosPerSecond / MicrosPerMilli
    ensures ms * MicrosPerMilli <= Elapsed(start, now).microseconds < (ms + 1) * MicrosPerMilli
  {
    Elapsed(start, now).microseconds / MicrosPerMilli
  }

  /** Adding whole seconds to the elapsed time leaves the reading unchanged. */
  lemma {:induction false} GetTimeDeltaDropsWholeSeconds(start: Instant, now: Instant, k: int)
    ensures GetTimeDelta(start, now + k * MicrosPerSecond) == GetTimeDelta(start, now)
  {
    var us := now - start;
    var s := us / MicrosPerSecond + k;
    DivModUnique(us + k * MicrosPerSecond, MicrosPerSecond, s, us % MicrosPerSecond);
  }

  /** Below one second of non-negative elapsed time, the reading is the elapsed milliseconds. */
  lemma {:induction false} GetTimeDeltaWithinSecond(start: Instant, now: Instant)
    requires 0 <= now - start < MicrosPerSecond
    ensures GetTimeDelta(start, now) == (now - start) / MicrosPerMilli
  {
    DivModUnique(now - start, MicrosPerSecond, 0, now - start);
  }
}
