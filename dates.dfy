/**
 * Calendar values. A task's dates are compared at day granularity, so a date is a
 * `(year, month, day)` triple ordered chronologically; the year projection is what the
 * timeline groups by. The quick-entry rewrites do arithmetic on dates, so there a date is
 * a day number counted from 1970-01-01 (a Thursday), with its ISO weekday.
 */
module Dates {
  import opened Sorting

  datatype Date = Date(year: int, month: int, day: int)

  /** Chronological order: year, then month, then day. */
  predicate DateLe(a: Date, b: Date) {
    a.year < b.year || (a.year == b.year && (a.month < b.month || (a.month == b.month && a.day <= b.day)))
  }

  /** The chronological order is a total order, so sorting dates is well defined. */
  lemma DateLeTotalOrder()
    ensures TotalOrder(DateLe)
  {
  }

  /** The year projection is monotone: an earlier date never lies in a later year. */
  lemma DateLeYear(a: Date, b: Date)
    requires DateLe(a, b)
    ensures a.year <= b.year
  {
  }

  /** A day number: days since 1970-01-01. */
  type DayNumber = int

  /** ISO weekday of a day number: 1 is Monday, 7 is Sunday (1970-01-01 was a Thursday, 4). */
  function IsoWeekday(d: DayNumber): (w: int)
    ensures 1 <= w <= 7
  {
    (d + 3) % 7 + 1
  }

  /** Moving `k` days forward moves the weekday `k` places round the week. */
  lemma IsoWeekdayShift(d: DayNumber, k: int)
    ensures IsoWeekday(d + k) == (IsoWeekday(d) - 1 + k) % 7 + 1
  {
    var q := (d + 3) / 7;
    var r := (d + 3) % 7;
    assert d + 3 == 7 * q + r;
    assert d + k + 3 == 7 * q + (r + k);
    ModAddMultiple(q, r + k);
  }

  lemma ModAddMultiple(q: int, x: int)
    ensures (7 * q + x) % 7 == x % 7
  {
    var a := (7 * q + x) / 7;
    var b := x / 7;
    assert 7 * q + x == 7 * a + (7 * q + x) % 7;
    assert x == 7 * b + x % 7;
    assert 7 * (q + b - a) == (7 * q + x) % 7 - x % 7;
  }
}
