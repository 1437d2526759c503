/**
 * Instants are whole minutes since 1970-01-01 00:00 (a Thursday), in the
 * naive local time that the pipeline's timestamps carry. The calendar
 * fields are those pandas reads off a timestamp: `.hour`, `.minute` and
 * `.dayofweek` (Monday = 0 … Sunday = 6).
 */
module Calendar {
  const MinutesPerHour: int := 60
  const MinutesPerDay: int := 1440
  /** The fixed sampling and forecasting interval, `freq="15T"`. */
  const SlotMinutes: int := 15
  const SlotsPerDay: int := 96

  /** Day number of 1970-01-01 in the Monday = 0 numbering. */
  const EpochDayOfWeek: int := 3

  function Hour(t: int): (h: int)
    ensures 0 <= h < 24
  {
    (t % MinutesPerDay) / MinutesPerHour
  }

  function Minute(t: int): (m: int)
    ensures 0 <= m < 60
  {
    t % MinutesPerHour
  }

  function DayOfWeek(t: int): (d: int)
    ensures 0 <= d < 7
  {
    (t / MinutesPerDay + EpochDayOfWeek) % 7
  }

  /** Midnight starting the given day number (days since 1970-01-01). */
  function Midnight(day: int): (t: int)
    ensures Hour(t) == 0 && Minute(t) == 0
    ensures DayOfWeek(t) == (day + EpochDayOfWeek) % 7
  {
    day * MinutesPerDay
  }

  /** 2023-07-01 00:00, the first synthesised sample. */
  const July1st2023: int := Midnight(19539)
  /** 2023-09-30 00:00, the last synthesised sample. */
  const September30th2023: int := Midnight(19539 + 91)

  /** The hour and minute fields together give the minutes since midnight. */
  lemma ClockFields(t: int)
    ensures Hour(t) * 60 + Minute(t) == t % MinutesPerDay
  {
  }

  /** Fifteen-minute steps keep the minute field on a quarter hour. */
  lemma {:induction false} QuarterHourStep(t: int, k: nat)
    requires Minute(t) % 15 == 0
    ensures Minute(t + SlotMinutes * k) % 15 == 0
  {
    if k > 0 {
      var before := t + SlotMinutes * (k - 1);
      QuarterHourStep(t, k - 1);
      QuarterHourNext(before);
      assert t + SlotMinutes * k == before + SlotMinutes;
    }
  }

  lemma QuarterHourNext(t: int)
    requires Minute(t) % 15 == 0
    ensures Minute(t + SlotMinutes) % 15 == 0
  {
    var m := t % 60;
    assert (t + 15) % 60 == if m + 15 < 60 then m + 15 else m - 45;
  }

  lemma July1st2023IsSaturday()
    ensures DayOfWeek(July1st2023) == 5
  {
  }
}
