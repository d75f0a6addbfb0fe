/**
 * Calendar features derived from a row's date: day of week, day of year,
 * month, a weekend flag and the quarter. The date itself is given already
 * decomposed (parsing and the calendar are not modelled).
 */
module TimeFeatures {

  /** A date as the calendar decomposes it: day of week 0 (Monday) to 6, day of year, month 1 to 12. */
  datatype CalendarDate = CalendarDate(dayOfWeek: int, dayOfYear: int, month: int)

  predicate ValidDate(d: CalendarDate) {
    0 <= d.dayOfWeek <= 6 && 1 <= d.dayOfYear <= 366 && 1 <= d.month <= 12
  }

  /** The time columns added to a row. */
  datatype TimeColumns = TimeColumns(dayOfWeek: int, dayOfYear: int, month: int, isWeekend: int, quarter: int)

  /** 1 on Saturday and Sunday (day of week 5 or 6), else 0. */
  function IsWeekend(dayOfWeek: int): (flag: int)
    ensures flag == 0 || flag == 1
    ensures flag == 1 <==> dayOfWeek >= 5
  {
    if dayOfWeek >= 5 then 1 else 0
  }

  /** The quarter of a month, (month − 1) // 3 + 1: the q with 3(q − 1) < month ≤ 3q. */
  function Quarter(month: int): (q: int)
    ensures 3 * (q - 1) < month <= 3 * q
    ensures 1 <= month <= 12 ==> 1 <= q <= 4
  {
    (month - 1) / 3 + 1
  }

  /** The time columns of one date; the calendar fields are carried unchanged. */
  function TimeColumnsOf(d: CalendarDate): (t: TimeColumns)
    ensures t.dayOfWeek == d.dayOfWeek && t.dayOfYear == d.dayOfYear && t.month == d.month
    ensures t.isWeekend == 1 <==> d.dayOfWeek >= 5
    ensures 3 * (t.quarter - 1) < d.month <= 3 * t.quarter
    ensures ValidDate(d) ==> (t.isWeekend == 0 || t.isWeekend == 1) && 1 <= t.quarter <= 4
  {
    TimeColumns(d.dayOfWeek, d.dayOfYear, d.month, IsWeekend(d.dayOfWeek), Quarter(d.month))
  }

  /** A row of any other columns together with its date. */
  datatype DatedRow<X> = DatedRow(columns: X, date: CalendarDate)

  /** A row after the time features have been added; its own columns are kept. */
  datatype TimedRow<X> = TimedRow(input: DatedRow<X>, time: TimeColumns)

  /** Adds the time columns to every row of a copy of the frame; the input rows are kept as they are. */
  function CreateTimeFeatures<X>(df: seq<DatedRow<X>>): (r: seq<TimedRow<X>>)
    ensures |r| == |df|
    ensures forall i :: 0 <= i < |df| ==> r[i].input == df[i] && r[i].time == TimeColumnsOf(df[i].date)
  {
    seq(|df|, i requires 0 <= i < |df| => TimedRow(df[i], TimeColumnsOf(df[i].date)))
  }

  /** Each quarter holds exactly three consecutive months. */
  lemma {:induction false} QuarterMonths(q: int)
    requires 1 <= q <= 4
    ensures forall m :: 1 <= m <= 12 ==> (Quarter(m) == q <==> 3 * q - 2 <= m <= 3 * q)
  {
    forall m | 1 <= m <= 12
      ensures Quarter(m) == q <==> 3 * q - 2 <= m <= 3 * q
    {
      var p := Quarter(m);
      assert 3 * (p - 1) < m <= 3 * p;
    }
  }
}
