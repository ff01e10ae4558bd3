/**
 * Time as epoch milliseconds. `java.util.Calendar` is replaced by arithmetic on fixed-length
 * days in a zone that sits a fixed number of milliseconds east of UTC (no daylight saving).
 */
module Clock {

  const SECOND: int := 1000
  const MINUTE: int := 60_000
  const HOUR: int := 3_600_000
  const DAY: int := 86_400_000
  const WEEK: int := 7 * DAY

  /** A local midnight: the instant `Calendar` yields after setting hour, minute, second and millisecond to 0. */
  predicate IsMidnight(t: int, zone: int) {
    (t + zone) % DAY == 0
  }

  /** The local midnight that starts the day holding `t`. */
  function StartOfDay(t: int, zone: int): (r: int)
    ensures IsMidnight(r, zone)
    ensures r <= t < r + DAY
  {
    t - (t + zone) % DAY
  }

  /** Only one midnight lies in the day window of an instant, so StartOfDay is the one. */
  lemma StartOfDayUnique(t: int, zone: int, m: int)
    requires IsMidnight(m, zone) && m <= t < m + DAY
    ensures m == StartOfDay(t, zone)
  {
    var r := StartOfDay(t, zone);
    var q := (m + zone) / DAY;
    assert m + zone == q * DAY;
    var p := (r + zone) / DAY;
    assert r + zone == p * DAY;
  }

  /** `Calendar.DAY_OF_WEEK` of the local day holding `t` (Sunday = 1 ... Saturday = 7); 1970-01-01 was a Thursday. */
  function DayOfWeek(t: int, zone: int): (d: int)
    ensures 1 <= d <= 7
  {
    ((t + zone) / DAY + 4) % 7 + 1
  }

  /** Local midnight of the first day (`firstDayOfWeek`, 1..7) of the week holding `t`. */
  function StartOfWeek(t: int, zone: int, firstDayOfWeek: int): (r: int)
    requires 1 <= firstDayOfWeek <= 7
    ensures IsMidnight(r, zone)
    ensures r <= t < r + WEEK
  {
    var back := (DayOfWeek(t, zone) - firstDayOfWeek) % 7;
    var r := StartOfDay(t, zone) - back * DAY;
    assert (r + zone) % DAY == 0 by {
      var d := (t + zone) / DAY;
      assert StartOfDay(t, zone) + zone == d * DAY;
      assert r + zone == (d - back) * DAY;
    }
    r
  }
}
