/** The training label of `DelayModel`: the minute difference between the
    actual and the scheduled departure, and the delay it implies. */
module Delay {
  import opened Calendar

  /** `((fecha_o - fecha_i).total_seconds()) / 60`, exactly. */
  function MinDiff(actual: DateTime, scheduled: DateTime): (r: real)
    ensures r * 60.0 == (Instant(actual) - Instant(scheduled)) as real
  {
    (Instant(actual) - Instant(scheduled)) as real / 60.0
  }

  /** The training label: 1 when the flight left more than 15 minutes late. */
  function DelayLabel(minDiff: real): (r: int)
    ensures r == 1 <==> minDiff > 15.0
    ensures r == 0 || r == 1
  {
    if minDiff > 15.0 then 1 else 0
  }

  /** The minute difference is positive exactly when the actual time comes
      after the scheduled one, and zero exactly when they coincide. */
  lemma {:induction false} MinDiffSign(actual: DateTime, scheduled: DateTime)
    requires WellFormed(actual) && WellFormed(scheduled)
    ensures MinDiff(actual, scheduled) > 0.0 <==> Precedes(scheduled, actual)
    ensures MinDiff(actual, scheduled) == 0.0 <==> actual == scheduled
  {
    InstantOrder(scheduled, actual);
  }

  /** A flight is delayed exactly when it left more than 900 seconds late, so
      a difference of exactly 15 minutes is on time. */
  lemma DelayThreshold(actual: DateTime, scheduled: DateTime)
    ensures DelayLabel(MinDiff(actual, scheduled)) == 1 <==> Instant(actual) - Instant(scheduled) > 900
  {
  }

  /** Delays spanning midnight count across the date change: 20 minutes late
      is a delay, exactly 15 minutes is not. */
  lemma DelayAcrossMidnight()
    ensures DelayLabel(MinDiff(DateTime(2017, 1, 1, 0, 10, 0), DateTime(2016, 12, 31, 23, 50, 0))) == 1
    ensures DelayLabel(MinDiff(DateTime(2017, 1, 1, 0, 5, 0), DateTime(2016, 12, 31, 23, 50, 0))) == 0
  {
    var scheduled := DateTime(2016, 12, 31, 23, 50, 0);
    DaysBeforeYearStep(2016);
    assert DayNumber(DateTime(2017, 1, 1, 0, 10, 0)) == DayNumber(scheduled) + 1;
    DelayThreshold(DateTime(2017, 1, 1, 0, 10, 0), scheduled);
    DelayThreshold(DateTime(2017, 1, 1, 0, 5, 0), scheduled);
  }
}
