/** The calendar features of `DelayModel`: time-of-day period and
    high-season flag. */
module Features {
  import opened Wrappers
  import opened Calendar

  /** The period labels 'mañana', 'tarde' and 'noche'. */
  datatype Period = Morning | Afternoon | Night

  /** A '%H:%M' bound: that minute with zero seconds. */
  function ClockBound(h: int, m: int): int {
    h * 3600 + m * 60
  }

  /** Closed ranges 05:00-11:59, 12:00-18:59, 19:00-23:59 and 00:00-04:59;
      `None` (Python's implicit return) for a time in no range. */
  function PeriodDay(d: DateTime): Option<Period> {
    var t := SecondOfDay(d);
    if ClockBound(5, 0) <= t <= ClockBound(11, 59) then Some(Morning)
    else if ClockBound(12, 0) <= t <= ClockBound(18, 59) then Some(Afternoon)
    else if (ClockBound(19, 0) <= t <= ClockBound(23, 59)) || (ClockBound(0, 0) <= t <= ClockBound(4, 59)) then Some(Night)
    else None
  }

  /** Each period holds exactly the times of day in its ranges, counted in
      seconds since midnight: 05:00 is 18000, 11:59 is 43140, 12:00 is 43200,
      18:59 is 68340, 19:00 is 68400, 23:59 is 86340 and 04:59 is 17940. */
  lemma PeriodDayRanges(d: DateTime)
    ensures PeriodDay(d) == Some(Morning) <==> 18000 <= SecondOfDay(d) <= 43140
    ensures PeriodDay(d) == Some(Afternoon) <==> 43200 <= SecondOfDay(d) <= 68340
    ensures PeriodDay(d) == Some(Night) <==> 68400 <= SecondOfDay(d) <= 86340 || 0 <= SecondOfDay(d) <= 17940
  {
    var t := SecondOfDay(d);
    if 18000 <= t <= 43140 {
      assert PeriodDay(d) == Some(Morning);
    } else if 43200 <= t <= 68340 {
      assert PeriodDay(d) == Some(Afternoon);
    } else if 68400 <= t <= 86340 || 0 <= t <= 17940 {
      assert PeriodDay(d) == Some(Night);
    } else {
      assert PeriodDay(d) == None;
    }
  }

  /** Each range ends at second 0 of its last minute, so exactly the times
      past that second in minutes 04:59, 11:59, 18:59 and 23:59 get no period. */
  lemma PeriodDayGap(d: DateTime)
    requires WellFormed(d)
    ensures PeriodDay(d) == None <==> d.minute == 59 && d.second > 0 && d.hour in {4, 11, 18, 23}
  {
    var t := SecondOfDay(d);
    assert d.hour * 3600 <= t < d.hour * 3600 + 3600;
    assert d.hour * 3600 + d.minute * 60 <= t < d.hour * 3600 + d.minute * 60 + 60;
    if d.hour in {4, 11, 18, 23} {
      assert t - d.hour * 3600 > 3540 <==> d.minute == 59 && d.second > 0;
    }
  }

  /** Outside those gaps the period is decided by the hour alone. */
  lemma PeriodDayByHour(d: DateTime)
    requires WellFormed(d)
    requires d.second == 0 || d.minute < 59
    ensures PeriodDay(d) == Some(if 5 <= d.hour <= 11 then Morning else if 12 <= d.hour <= 18 then Afternoon else Night)
  {
  }

  /** `_is_high_season` writes the window bounds as f'15-Dec-{year}' and parses
      them with '%Y', which takes exactly four digits: a year below 1000
      raises ValueError. */
  predicate HighSeasonParses(d: DateTime) {
    d.year >= 1000
  }

  function Midnight(y: int, m: int, day: int): DateTime {
    DateTime(y, m, day, 0, 0, 0)
  }

  predicate Within(d: DateTime, lo: DateTime, hi: DateTime) {
    Instant(lo) <= Instant(d) <= Instant(hi)
  }

  /** 1 when `d` lies in one of the closed windows of its own year, each from
      and to midnight, else 0. */
  function IsHighSeason(d: DateTime): (r: int)
    ensures r == 0 || r == 1
  {
    var y := d.year;
    if || Within(d, Midnight(y, 12, 15), Midnight(y, 12, 31))
       || Within(d, Midnight(y, 1, 1), Midnight(y, 3, 3))
       || Within(d, Midnight(y, 7, 15), Midnight(y, 7, 31))
       || Within(d, Midnight(y, 9, 11), Midnight(y, 9, 30))
    then 1 else 0
  }

  predicate AtMidnight(d: DateTime) {
    d.hour == 0 && d.minute == 0 && d.second == 0
  }

  /** The windows stated by calendar date: 15 Dec to 31 Dec 00:00, all of
      January and February and 1 Mar to 3 Mar 00:00, 15 Jul to 31 Jul 00:00,
      11 Sep to 30 Sep 00:00. */
  predicate InHighSeasonDates(d: DateTime) {
    || (d.month == 12 && 15 <= d.day && (d.day < 31 || AtMidnight(d)))
    || d.month == 1 || d.month == 2
    || (d.month == 3 && (d.day < 3 || (d.day == 3 && AtMidnight(d))))
    || (d.month == 7 && 15 <= d.day && (d.day < 31 || AtMidnight(d)))
    || (d.month == 9 && 11 <= d.day && (d.day < 30 || AtMidnight(d)))
  }

  lemma {:induction false} WithinByFields(d: DateTime, lo: DateTime, hi: DateTime)
    requires WellFormed(d) && WellFormed(lo) && WellFormed(hi)
    ensures Within(d, lo, hi) <==> !Precedes(d, lo) && !Precedes(hi, d)
  {
    InstantOrder(d, lo);
    InstantOrder(hi, d);
  }

  lemma {:induction false} HighSeasonByDate(d: DateTime)
    requires WellFormed(d)
    ensures IsHighSeason(d) == 1 <==> InHighSeasonDates(d)
  {
    var y := d.year;
    WithinByFields(d, Midnight(y, 12, 15), Midnight(y, 12, 31));
    WithinByFields(d, Midnight(y, 1, 1), Midnight(y, 3, 3));
    WithinByFields(d, Midnight(y, 7, 15), Midnight(y, 7, 31));
    WithinByFields(d, Midnight(y, 9, 11), Midnight(y, 9, 30));
  }
}
