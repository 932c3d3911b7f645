/** Timestamps of the form '%Y-%m-%d %H:%M:%S' as structured fields, and the
    absolute order Python's `datetime` compares them by. */
module Calendar {

  datatype DateTime = DateTime(year: int, month: int, day: int, hour: int, minute: int, second: int)

  predicate IsLeapYear(y: int) {
    y % 4 == 0 && (y % 100 != 0 || y % 400 == 0)
  }

  function DaysInMonth(y: int, m: int): int {
    if m == 2 then (if IsLeapYear(y) then 29 else 28)
    else if m == 4 || m == 6 || m == 9 || m == 11 then 30
    else 31
  }

  function DaysInYear(y: int): int {
    if IsLeapYear(y) then 366 else 365
  }

  /** A timestamp that `datetime.strptime(s, '%Y-%m-%d %H:%M:%S')` accepts:
      a four-digit year that `datetime` allows, a real calendar date and a
      time of day whose seconds `datetime` accepts. */
  predicate WellFormed(d: DateTime) {
    && 1 <= d.year <= 9999
    && 1 <= d.month <= 12
    && 1 <= d.day <= DaysInMonth(d.year, d.month)
    && 0 <= d.hour < 24
    && 0 <= d.minute < 60
    && 0 <= d.second < 60
  }

  /** Days of year `y` before the first day of month `m` (for 1 <= m <= 13). */
  function DaysBeforeMonth(y: int, m: int): int {
    var common :=
      if m <= 1 then 0 else if m == 2 then 31 else if m == 3 then 59
      else if m == 4 then 90 else if m == 5 then 120 else if m == 6 then 151
      else if m == 7 then 181 else if m == 8 then 212 else if m == 9 then 243
      else if m == 10 then 273 else if m == 11 then 304 else if m == 12 then 334
      else 365;
    if m > 2 && IsLeapYear(y) then common + 1 else common
  }

  /** Days from 1 January of year 1 to 1 January of year `y` (proleptic Gregorian). */
  function DaysBeforeYear(y: int): int {
    365 * (y - 1) + (y - 1) / 4 - (y - 1) / 100 + (y - 1) / 400
  }

  function DayNumber(d: DateTime): int {
    DaysBeforeYear(d.year) + DaysBeforeMonth(d.year, d.month) + d.day - 1
  }

  function SecondOfDay(d: DateTime): int {
    d.hour * 3600 + d.minute * 60 + d.second
  }

  /** Seconds since 0001-01-01 00:00:00: what `datetime` subtraction measures. */
  function Instant(d: DateTime): int {
    DayNumber(d) * 86400 + SecondOfDay(d)
  }

  /** `a` comes strictly before `b` in reading order of its fields. */
  predicate Precedes(a: DateTime, b: DateTime) {
    || a.year < b.year
    || (a.year == b.year && a.month < b.month)
    || (a.year == b.year && a.month == b.month && a.day < b.day)
    || (a.year == b.year && a.month == b.month && a.day == b.day && SecondOfDay(a) < SecondOfDay(b))
  }

  lemma DaysBeforeYearStep(y: int)
    ensures DaysBeforeYear(y + 1) == DaysBeforeYear(y) + DaysInYear(y)
  {
    assert y / 4 - (y - 1) / 4 == if y % 4 == 0 then 1 else 0;
    assert y / 100 - (y - 1) / 100 == if y % 100 == 0 then 1 else 0;
    assert y / 400 - (y - 1) / 400 == if y % 400 == 0 then 1 else 0;
  }

  /** A whole earlier year lies before any later year. */
  lemma {:induction false} DaysBeforeYearGrows(y1: int, y2: int)
    requires y1 < y2
    ensures DaysBeforeYear(y1) + DaysInYear(y1) <= DaysBeforeYear(y2)
    decreases y2 - y1
  {
    DaysBeforeYearStep(y1);
    if y1 + 1 < y2 {
      DaysBeforeYearGrows(y1 + 1, y2);
    }
  }

  lemma MonthsFollow(y: int, m1: int, m2: int)
    requires 1 <= m1 < m2 <= 13
    ensures DaysBeforeMonth(y, m1) + DaysInMonth(y, m1) <= DaysBeforeMonth(y, m2)
  {
  }

  lemma DayOfYearBounds(d: DateTime)
    requires WellFormed(d)
    ensures 0 <= DaysBeforeMonth(d.year, d.month) + d.day - 1 < DaysInYear(d.year)
  {
    MonthsFollow(d.year, d.month, 13);
  }

  lemma {:induction false} PrecedesEarlier(a: DateTime, b: DateTime)
    requires WellFormed(a) && WellFormed(b) && Precedes(a, b)
    ensures Instant(a) < Instant(b)
  {
    if a.year < b.year {
      DayOfYearBounds(a);
      DayOfYearBounds(b);
      DaysBeforeYearGrows(a.year, b.year);
      assert DayNumber(a) < DayNumber(b);
    } else if a.month < b.month {
      MonthsFollow(a.year, a.month, b.month);
      assert DayNumber(a) < DayNumber(b);
    }
  }

  /** Comparing instants is comparing the fields in reading order; distinct
      well-formed timestamps are distinct instants. */
  lemma {:induction false} InstantOrder(a: DateTime, b: DateTime)
    requires WellFormed(a) && WellFormed(b)
    ensures Instant(a) < Instant(b) <==> Precedes(a, b)
    ensures Instant(a) == Instant(b) <==> a == b
  {
    if Precedes(a, b) {
      PrecedesEarlier(a, b);
    } else if Precedes(b, a) {
      PrecedesEarlier(b, a);
    } else {
      assert a.year == b.year && a.month == b.month && a.day == b.day && SecondOfDay(a) == SecondOfDay(b);
      assert a.hour == b.hour;
      assert a.minute == b.minute;
    }
  }
}
