/**
 * Time as the model sees it. Instants are integers, with 0 standing for Go's
 * zero time.Time; grid days are day numbers counted from 1 January 1970.
 * The calendar operations of Go's time package that the application uses
 * (parsing and formatting the YYMMDD key, the day of the month, the month,
 * stepping back six months) are not modelled: they are carried as the
 * functions of a Calendar value, passed to the operations that need them.
 */
module Time {
  import opened Results

  type Instant = int
  const Zero: Instant := 0

  /** A calendar day, counted from 1 January 1970. */
  type Day = int

  type Month = m: int | 1 <= m <= 12 witness 1

  datatype Calendar = Calendar(
    parse: string -> Option<Instant>,  // midnight of a YYMMDD key in local time, if it parses
    format: Instant -> string,         // the YYMMDD key of the day holding an instant
    pretty: Instant -> string,         // the "Jan 2, 2006" rendering of an instant
    dayKey: Day -> string,             // the YYMMDD key of a grid day
    dayOfMonth: Day -> int,            // 1..31
    month: Day -> Month,
    sixMonthsBefore: Day -> Day        // AddDate(0, -6, 0)
  )

  /** The key of an instant's day parses back to that day's midnight, which is no later than the instant. */
  ghost predicate Coherent(cal: Calendar)
  {
    (forall i: Instant :: cal.parse(cal.format(i)).Some? && cal.parse(cal.format(i)).value <= i) &&
    (forall d: Day :: cal.sixMonthsBefore(d) <= d)
  }

  /** Day of the week, 0 for Sunday; day 0 (1 January 1970) was a Thursday. */
  function Weekday(d: Day): (w: int)
    ensures 0 <= w < 7
    ensures w == 0 <==> d % 7 == 3
  {
    (d + 4) % 7
  }

  /** The abbreviation shown in the grid's month column (home.go:25-28). */
  function MonthAbbrev(m: Month): (s: string)
    ensures |s| == 3
  {
    if m == 1 then "Jan" else if m == 2 then "Feb" else if m == 3 then "Mar"
    else if m == 4 then "Apr" else if m == 5 then "May" else if m == 6 then "Jun"
    else if m == 7 then "Jul" else if m == 8 then "Aug" else if m == 9 then "Sep"
    else if m == 10 then "Oct" else if m == 11 then "Nov" else "Dec"
  }
}
