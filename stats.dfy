/** `startOfWeek` of the overview statistics: local midnight of the Monday
    that begins the week of a given instant. */
module Stats {
  import opened Common
  import opened DateTime

  /** The local calendar day of an instant, counted from 1970-01-01. */
  function Day(t: Instant): int {
    t / DayMs
  }

  /** `getDay()`: 0 for Sunday up to 6 for Saturday; 1970-01-01 was a
      Thursday. */
  function Weekday(t: Instant): (w: int)
    ensures 0 <= w < 7
  {
    (Day(t) + 4) % 7
  }

  /** `r` is the Monday midnight that starts the week of `t`. */
  predicate IsWeekStart(r: Instant, t: Instant) {
    && Weekday(r) == 1
    && r % DayMs == 0
    && Day(t) - 6 <= Day(r) <= Day(t)
  }

  /** The copy of the date is moved to midnight and then to the Monday on
      or before it: back `day - 1` days, or six days from a Sunday. */
  method StartOfWeek(t: Instant) returns (r: Instant)
    ensures IsWeekStart(r, t)
    ensures r <= t
    ensures Weekday(t) == 1 ==> Day(r) == Day(t)
  {
    var date := t;
    var day := Weekday(date);
    var shift := -day + (if day == 0 then -6 else 1);
    date := date - date % DayMs;
    assert date == Day(t) * DayMs;
    date := date + shift * DayMs;
    assert date == (Day(t) + shift) * DayMs;
    assert Day(date) == Day(t) + shift;
    r := date;
  }

  /** At most one instant is the week start of `t`, so the contract of
      `StartOfWeek` fixes its result. */
  lemma WeekStartUnique(t: Instant, a: Instant, b: Instant)
    requires IsWeekStart(a, t) && IsWeekStart(b, t)
    ensures a == b
  {
    var da, db := Day(a), Day(b);
    assert (da + 4) % 7 == (db + 4) % 7;
    assert (da - db) % 7 == 0 by {
      assert da + 4 == 7 * ((da + 4) / 7) + 1;
      assert db + 4 == 7 * ((db + 4) / 7) + 1;
      assert da - db == 7 * ((da + 4) / 7 - (db + 4) / 7);
    }
    assert da == db;
    assert a == da * DayMs && b == db * DayMs;
  }

  /** Every instant of the same Monday-to-Sunday week has the same week
      start. */
  lemma SameWeekSameStart(r: Instant, t: Instant, u: Instant)
    requires IsWeekStart(r, t)
    requires Day(r) <= Day(u) <= Day(r) + 6
    ensures IsWeekStart(r, u)
  {
  }
}
