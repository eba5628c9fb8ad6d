/** Dates are whole day numbers counted from 1970-01-01 (day 0), which was a
    Thursday. The dashboard numbers the days of the week 1 = Monday through
    7 = Sunday, the numbering of ISO 8601 (and of Athena's `day_of_week`):
    pandas' `dt.dayofweek` gives 0 = Monday, and the dashboard adds 1. */
module Calendar {

  /** pandas' `dt.dayofweek`: 0 = Monday … 6 = Sunday. Day 0 is a Thursday (3),
      and `%` is Euclidean, so dates before 1970 are handled too. */
  function PandasDayOfWeek(d: int): (w: int)
    ensures 0 <= w < 7
  {
    (d + 3) % 7
  }

  /** The dashboard's day-of-week column: `dayofweek + 1`, Monday = 1 … Sunday = 7. */
  function DayOfWeek(d: int): (w: int)
    ensures 1 <= w <= 7
  {
    PandasDayOfWeek(d) + 1
  }

  /** 1970-01-01, day 0, was a Thursday. */
  lemma EpochIsThursday()
    ensures DayOfWeek(0) == 4
  {
  }

  /** The next day is the next weekday, and Sunday is followed by Monday. */
  lemma NextDay(d: int)
    ensures DayOfWeek(d + 1) == if DayOfWeek(d) == 7 then 1 else DayOfWeek(d) + 1
  {
  }

  /** The numbering repeats every week, forwards and backwards. */
  lemma WeeksApart(d: int, weeks: nat)
    ensures DayOfWeek(d + 7 * weeks) == DayOfWeek(d)
    ensures DayOfWeek(d - 7 * weeks) == DayOfWeek(d)
  {
  }

  /** Day number of 2025-06-02, a Monday. */
  const JUNE_2_2025: int := 20241

  lemma June2nd2025IsMonday()
    ensures DayOfWeek(JUNE_2_2025) == 1
  {
  }
}
