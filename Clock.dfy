/** The check-in time window: a test on the device's local wall-clock time.
    Only the hour and the minute are read; seconds and milliseconds are carried
    in LocalTime because the clock supplies them, and are ignored. */
module Clock {

  /** The ranges a JavaScript Date reports for local hours and minutes. */
  type Hour = h: int | 0 <= h < 24
  type Minute = m: int | 0 <= m < 60
  type Second = s: int | 0 <= s < 60
  type Millisecond = ms: int | 0 <= ms < 1000

  /** A reading of the device's local clock. */
  datatype LocalTime = LocalTime(hour: Hour, minute: Minute, second: Second, millisecond: Millisecond)

  const MinutesPerDay := 24 * 60

  /** First and last minute of the day (counted from midnight) that the window admits:
      08:30 and 09:00. */
  const WindowStart := 8 * 60 + 30
  const WindowEnd := 9 * 60

  /** The number of whole minutes since local midnight. */
  function MinuteOfDay(hour: Hour, minute: Minute): (m: int)
    ensures 0 <= m < MinutesPerDay
    ensures m / 60 == hour && m % 60 == minute
  {
    hour * 60 + minute
  }

  /** The window test on hour and minute: 08:30 to 08:59, and the single minute 09:00.
      Equivalently, the minute of the day lies in the closed interval [08:30, 09:00]. */
  function WithinTime(hour: Hour, minute: Minute): (r: bool)
    ensures r <==> WindowStart <= MinuteOfDay(hour, minute) <= WindowEnd
    ensures r ==> hour == 8 || (hour == 9 && minute == 0)
  {
    (hour == 8 && minute >= 30) || (hour == 9 && minute == 0)
  }

  /** The window test applied to a clock reading. */
  function InWindow(now: LocalTime): (r: bool)
    ensures r <==> WindowStart <= MinuteOfDay(now.hour, now.minute) <= WindowEnd
  {
    WithinTime(now.hour, now.minute)
  }

  /** Exact boundaries: 08:29 is out, 08:30, 08:59 and 09:00 are in, 09:01 and 10:00 are out.
      Because seconds are ignored, the last admitted instant is 09:00:59.999, not 09:00:00. */
  lemma WindowBoundaries()
    ensures !WithinTime(8, 29)
    ensures WithinTime(8, 30) && WithinTime(8, 59) && WithinTime(9, 0)
    ensures !WithinTime(9, 1) && !WithinTime(10, 0)
    ensures !WithinTime(7, 59) && !WithinTime(20, 30)
    ensures InWindow(LocalTime(9, 0, 59, 999)) && !InWindow(LocalTime(8, 29, 59, 999))
  {
  }

  /** Seconds and milliseconds never change the outcome of the window test. */
  lemma SecondsIgnored(t: LocalTime, u: LocalTime)
    requires t.hour == u.hour && t.minute == u.minute
    ensures InWindow(t) == InWindow(u)
    ensures InWindow(t) == InWindow(t.(second := 0, millisecond := 0))
  {
  }

  /** The minutes of the day, counted from midnight, that the window admits. */
  function AdmittedMinutes(): (s: set<int>)
    ensures forall m :: m in s <==> WindowStart <= m <= WindowEnd
  {
    set m | 0 <= m < MinutesPerDay && WithinTime(m / 60, m % 60)
  }

  /** The set of integers lo, lo + 1, ..., hi - 1. */
  function Range(lo: int, hi: int): (s: set<int>)
    ensures forall m :: m in s <==> lo <= m < hi
    ensures lo <= hi ==> |s| == hi - lo
    decreases hi - lo
  {
    if lo >= hi then {} else {lo} + Range(lo + 1, hi)
  }

  /** The window is a single contiguous run of exactly 31 clock minutes (08:30 through 09:00). */
  lemma WindowHasThirtyOneMinutes()
    ensures AdmittedMinutes() == Range(WindowStart, WindowEnd + 1)
    ensures |AdmittedMinutes()| == 31
  {
  }
}
