/** The home screen's data: the day grid, the displayed day record and their updates (home.go). */
module Home {
  import opened Results
  import opened Time
  import opened Habits
  import opened Storage
  import opened Widgets

  datatype GridCell = GridCell(day: Day, fmtDate: string, summary: Summary)

  /** A week of the grid: seven cells and the month label shown beside it. */
  datatype GridRow = GridRow(monthText: string, cells: seq<GridCell>)

  /** The displayed day: its key, its rendering, its habits and one check box per habit. */
  datatype DailyRecord = DailyRecord(fmtDate: string, prettyDate: string, habits: seq<Habit>, checks: seq<bool>)

  /** Go's zero dailyRecordWidget. */
  const ZeroRecord := DailyRecord("", "", [], [])

  /** The check-box values that reflect a list of habits. */
  function ChecksOf(habits: seq<Habit>): seq<bool>
  {
    seq(|habits|, i requires 0 <= i < |habits| => habits[i].IsDone())
  }

  /** The loop filling the check boxes (home.go:387-390, and again main.go:128-131). */
  method BuildChecks(habits: seq<Habit>) returns (checks: seq<bool>)
    ensures |checks| == |habits|
    ensures forall i :: 0 <= i < |habits| ==> checks[i] == habits[i].IsDone()
    ensures checks == ChecksOf(habits)
  {
    checks := [];
    for i := 0 to |habits|
      invariant |checks| == i
      invariant forall k :: 0 <= k < i ==> checks[k] == habits[k].IsDone()
    {
      checks := checks + [habits[i].IsDone()];
    }
  }

  /** newDailyRecord (home.go:386-401): the zero record and an error when the key does not parse. */
  method NewDailyRecord(fmtDate: string, habits: seq<Habit>, cal: Calendar) returns (rec: DailyRecord, err: Option<Error>)
    ensures cal.parse(fmtDate).None? ==> rec == ZeroRecord && err == Some(BadDate)
    ensures cal.parse(fmtDate).Some? ==>
              (err == None && rec == DailyRecord(fmtDate, cal.pretty(cal.parse(fmtDate).value), habits, ChecksOf(habits)))
  {
    var checks := BuildChecks(habits);
    var t := cal.parse(fmtDate);
    if t.None? {
      return ZeroRecord, Some(BadDate);
    }
    rec := DailyRecord(fmtDate, cal.pretty(t.value), habits, checks);
    err := None;
  }

  datatype Pos = Pos(row: nat, col: nat)

  /** The index of the first cell of a row whose key is fmtDate. */
  function FirstCell(cells: seq<GridCell>, fmtDate: string): Option<nat>
  {
    FirstIndex(cells, (c: GridCell) => c.fmtDate == fmtDate)
  }

  /** The first cell, in row-major order, whose key is fmtDate. */
  function FirstMatch(rows: seq<GridRow>, fmtDate: string): (r: Option<Pos>)
    ensures r.Some? ==>
              r.value.row < |rows| && r.value.col < |rows[r.value.row].cells| &&
              rows[r.value.row].cells[r.value.col].fmtDate == fmtDate &&
              (forall i, j :: 0 <= i < r.value.row && 0 <= j < |rows[i].cells| ==> rows[i].cells[j].fmtDate != fmtDate) &&
              (forall j :: 0 <= j < r.value.col ==> rows[r.value.row].cells[j].fmtDate != fmtDate)
    ensures r.None? <==>
              forall i, j :: 0 <= i < |rows| && 0 <= j < |rows[i].cells| ==> rows[i].cells[j].fmtDate != fmtDate
  {
    if rows == [] then None
    else match FirstCell(rows[0].cells, fmtDate)
      case Some(j) => Some(Pos(0, j))
      case None =>
        match FirstMatch(rows[1..], fmtDate)
        case None => None
        case Some(p) =>
          assert forall i :: 1 <= i < |rows| ==> rows[i] == rows[1..][i - 1];
          Some(Pos(p.row + 1, p.col))
  }

  /** The grid after setSummary: the summary replaced in the first matching cell only. */
  function WithSummary(rows: seq<GridRow>, fmtDate: string, summary: Summary): seq<GridRow>
  {
    match FirstMatch(rows, fmtDate)
    case None => rows
    case Some(p) =>
      var row := rows[p.row];
      rows[p.row := row.(cells := row.cells[p.col := row.cells[p.col].(summary := summary)])]
  }

  /** setSummary changes the summary of the first matching cell and nothing else, and nothing at all when no cell matches. */
  lemma WithSummaryCells(rows: seq<GridRow>, fmtDate: string, summary: Summary, i: nat, j: nat)
    requires i < |rows| && j < |rows[i].cells|
    ensures var after := WithSummary(rows, fmtDate, summary);
            |after| == |rows| && after[i].monthText == rows[i].monthText && |after[i].cells| == |rows[i].cells| &&
            after[i].cells[j] == if FirstMatch(rows, fmtDate) == Some(Pos(i, j))
                                 then rows[i].cells[j].(summary := summary) else rows[i].cells[j]
  {
  }

  /** The grid's first day: six months back, then back to the Sunday of that week. */
  function GridStart(today: Day, cal: Calendar): (start: Day)
    ensures Weekday(start) == 0
    ensures start <= cal.sixMonthsBefore(today) < start + 7
  {
    var s := cal.sixMonthsBefore(today);
    assert s + 4 == 7 * ((s + 4) / 7) + (s + 4) % 7;
    s - Weekday(s)
  }

  /** summaries[fmtDate], the zero summary when the key is missing. */
  function Lookup(summaries: map<string, Summary>, fmtDate: string): Summary
  {
    if fmtDate in summaries then summaries[fmtDate] else ZeroSummary
  }

  function CellOf(day: Day, summaries: map<string, Summary>, cal: Calendar): GridCell
  {
    GridCell(day, cal.dayKey(day), Lookup(summaries, cal.dayKey(day)))
  }

  /** The month label: the month's abbreviation on a week starting in the first seven days of a month. */
  function MonthTextOf(day: Day, cal: Calendar): string
  {
    if cal.dayOfMonth(day) <= 7 then MonthAbbrev(cal.month(day)) else ""
  }

  ghost predicate RowFrom(row: GridRow, first: Day, summaries: map<string, Summary>, cal: Calendar)
  {
    |row.cells| == 7 && row.monthText == MonthTextOf(first, cal) &&
    forall c :: 0 <= c < 7 ==> row.cells[c] == CellOf(first + c, summaries, cal)
  }

  /** The rows of the day grid: consecutive weeks from the grid start until today is covered. */
  ghost predicate IsDayGrid(rows: seq<GridRow>, summaries: map<string, Summary>, today: Day, cal: Calendar)
  {
    var start := GridStart(today, cal);
    (forall r :: 0 <= r < |rows| ==> RowFrom(rows[r], start + 7 * r, summaries, cal)) &&
    (|rows| == 0 <==> start > today) &&
    (|rows| > 0 ==> start + 7 * (|rows| - 1) <= today < start + 7 * |rows|)
  }

  /** Every row of the day grid holds seven days and starts on a Sunday. */
  lemma DayGridSundays(rows: seq<GridRow>, summaries: map<string, Summary>, today: Day, cal: Calendar, r: nat)
    requires IsDayGrid(rows, summaries, today, cal) && r < |rows|
    ensures |rows[r].cells| == 7 && Weekday(rows[r].cells[0].day) == 0
  {
    var start := GridStart(today, cal);
    assert RowFrom(rows[r], start + 7 * r, summaries, cal);
    assert rows[r].cells[0].day == start + 7 * r;
    assert (start + 7 * r + 4) % 7 == (start + 4) % 7;
  }

  /** The grid's days are consecutive: within a row, and from the end of one row to the start of the next. */
  lemma DayGridConsecutive(rows: seq<GridRow>, summaries: map<string, Summary>, today: Day, cal: Calendar, r: nat)
    requires IsDayGrid(rows, summaries, today, cal) && r < |rows|
    ensures |rows[r].cells| == 7
    ensures forall c :: 0 <= c < 6 ==> rows[r].cells[c + 1].day == rows[r].cells[c].day + 1
    ensures r + 1 < |rows| ==> rows[r + 1].cells[0].day == rows[r].cells[6].day + 1
  {
    var start := GridStart(today, cal);
    assert RowFrom(rows[r], start + 7 * r, summaries, cal);
    if r + 1 < |rows| {
      assert RowFrom(rows[r + 1], start + 7 * (r + 1), summaries, cal);
    }
  }

  /** With a coherent calendar the grid is never empty; today's cell is in the last row, and every cell shows the stored summary of its date, or the zero summary. */
  lemma DayGridCoversToday(rows: seq<GridRow>, summaries: map<string, Summary>, today: Day, cal: Calendar)
    requires IsDayGrid(rows, summaries, today, cal) && Coherent(cal)
    ensures |rows| > 0
    ensures exists cell :: cell in rows[|rows| - 1].cells && cell.day == today &&
              cell.fmtDate == cal.dayKey(today) &&
              cell.summary == (if cal.dayKey(today) in summaries then summaries[cal.dayKey(today)] else ZeroSummary)
  {
    var start := GridStart(today, cal);
    assert cal.sixMonthsBefore(today) <= today;
    var last := |rows| - 1;
    assert RowFrom(rows[last], start + 7 * last, summaries, cal);
    var c := today - (start + 7 * last);
    assert rows[last].cells[c] == CellOf(today, summaries, cal);
  }

  /** A row has a month label iff its first day lies within the first seven days of its month. */
  lemma DayGridMonthText(rows: seq<GridRow>, summaries: map<string, Summary>, today: Day, cal: Calendar, r: nat)
    requires IsDayGrid(rows, summaries, today, cal) && r < |rows|
    ensures |rows[r].cells| == 7
    ensures rows[r].monthText != "" <==> cal.dayOfMonth(rows[r].cells[0].day) <= 7
  {
    var start := GridStart(today, cal);
    assert RowFrom(rows[r], start + 7 * r, summaries, cal);
  }

  /** newDayGrid (home.go:342-370). */
  method NewDayGrid(summaries: map<string, Summary>, today: Day, cal: Calendar) returns (rows: seq<GridRow>)
    ensures IsDayGrid(rows, summaries, today, cal)
  {
    var start := GridStart(today, cal);
    var day := start;
    rows := [];
    while day < today + 1
      invariant day == start + 7 * |rows|
      invariant |rows| > 0 ==> start + 7 * (|rows| - 1) <= today
      invariant forall r :: 0 <= r < |rows| ==> RowFrom(rows[r], start + 7 * r, summaries, cal)
      decreases today + 1 - day
    {
      var monthText := MonthTextOf(day, cal);
      var first := day;
      var cells: seq<GridCell> := [];
      for i := 0 to 7
        invariant |cells| == i && day == first + i
        invariant forall c :: 0 <= c < i ==> cells[c] == CellOf(first + c, summaries, cal)
      {
        var fmtDate := cal.dayKey(day);
        cells := cells + [GridCell(day, fmtDate, Lookup(summaries, fmtDate))];
        day := day + 1;
      }
      rows := rows + [GridRow(monthText, cells)];
    }
  }

  class HomeScreen {
    var store: Store
    var gridRows: seq<GridRow>
    var record: DailyRecord
    var errors: ErrorList

    /** The store is open and the check boxes reflect the displayed habits. */
    ghost predicate Valid()
      reads this, store
    {
      store.Valid() && record.checks == ChecksOf(record.habits)
    }

    constructor (store: Store, gridRows: seq<GridRow>, record: DailyRecord)
      requires store.Valid() && record.checks == ChecksOf(record.habits)
      ensures Valid()
      ensures this.store == store && this.gridRows == gridRows && this.record == record
      ensures fresh(errors) && errors.errors == []
    {
      this.store := store;
      this.gridRows := gridRows;
      this.record := record;
      errors := new ErrorList();
    }

    /** setSummary (home.go:309-319). */
    method SetSummary(fmtDate: string, summary: Summary)
      modifies this`gridRows
      ensures gridRows == WithSummary(old(gridRows), fmtDate, summary)
    {
      var i := 0;
      while i < |gridRows|
        invariant 0 <= i <= |gridRows| && gridRows == old(gridRows)
        invariant forall a, b :: 0 <= a < i && 0 <= b < |gridRows[a].cells| ==> gridRows[a].cells[b].fmtDate != fmtDate
      {
        var cells := gridRows[i].cells;
        var j := 0;
        while j < |cells|
          invariant 0 <= j <= |cells|
          invariant forall b :: 0 <= b < j ==> cells[b].fmtDate != fmtDate
        {
          if cells[j].fmtDate == fmtDate {
            assert FirstMatch(gridRows, fmtDate) == Some(Pos(i, j));
            gridRows := gridRows[i := gridRows[i].(cells := cells[j := cells[j].(summary := summary)])];
            return;
          }
          j := j + 1;
        }
        i := i + 1;
      }
    }

    /** The "Manage Habits" click (home.go:82-91): the template to open the habit screen with, or an error. */
    method ManageHabits() returns (items: Option<seq<Habit>>)
      requires store.Valid()
      modifies errors
      ensures TemplateOf(store.Contents()).Ok? ==>
                items == Some(TemplateOf(store.Contents()).value) && errors.errors == old(errors.errors)
      ensures TemplateOf(store.Contents()).Err? ==>
                items == None && errors.errors == old(errors.errors) + [ErrWidget("reading habits", TemplateOf(store.Contents()).error)]
    {
      var r := store.GetHabits();
      if r.Err? {
        errors.Add("reading habits", r.error);
        return None;
      }
      items := Some(r.value);
    }

    /**
     * selectDay (home.go:287-298): a failed read records an error and keeps
     * the displayed record; otherwise the record shows the day's habits.
     */
    method SelectDay(fmtDate: string, now: Instant, cal: Calendar, commits: bool)
      requires Valid()
      modifies this`record, errors, store
      ensures Valid() && gridRows == old(gridRows)
      ensures var read := Commit(old(store.Contents()), DayBody(old(store.Contents()), fmtDate, now, cal), commits);
              store.Contents() == read.after &&
              (read.result.Err? ==>
                 record == old(record) &&
                 errors.errors == old(errors.errors) + [ErrWidget("selecting day", read.result.error)]) &&
              (read.result.Ok? ==>
                 cal.parse(fmtDate).Some? && errors.errors == old(errors.errors) &&
                 record == DailyRecord(fmtDate, cal.pretty(cal.parse(fmtDate).value), read.result.value, ChecksOf(read.result.value)))
    {
      var items := store.GetHabitsForDay(fmtDate, now, cal, commits);
      if items.Err? {
        errors.Add("selecting day", items.error);
        return;
      }
      var rec, err := NewDailyRecord(fmtDate, items.value, cal);
      // getHabitsForDay has just parsed the same key, so newDailyRecord cannot fail here.
      assert err == None;
      record := rec;
    }

    /** saveCurrentRecord (home.go:300-307): the cached cell summary first, then the write. */
    method SaveCurrentRecord(commits: bool)
      requires Valid()
      modifies this`gridRows, errors, store
      ensures Valid() && record == old(record)
      ensures gridRows == WithSummary(old(gridRows), record.fmtDate, SummaryOf(record.habits))
      ensures store.Contents() == Commit(old(store.Contents()), PutDayBody(old(store.Contents()), record.fmtDate, record.habits), commits).after
      ensures var w := Commit(old(store.Contents()), PutDayBody(old(store.Contents()), record.fmtDate, record.habits), commits);
              errors.errors == if w.result.Ok? then old(errors.errors)
                               else old(errors.errors) + [ErrWidget("saving this day's habits", w.result.error)]
    {
      var summary := NewSummaryOfList(record.habits);
      SetSummary(record.fmtDate, summary);
      var err := store.PutHabitsForDay(record.fmtDate, record.habits, commits);
      if err.Some? {
        errors.Add("saving this day's habits", err.value);
      }
    }

    /**
     * A click on check box i (home.go:274-281): the box flips, the habit's
     * CompletedAt becomes now when checked and zero when unchecked, and the
     * record is saved.
     */
    method ToggleCheck(i: nat, now: Instant, commits: bool)
      requires Valid() && i < |record.habits|
      requires now != Zero
      modifies this`record, this`gridRows, errors, store
      ensures Valid() && |record.habits| == |record.checks| == |old(record.habits)|
      ensures record.checks[i] == !old(record.checks[i]) && record.habits[i].IsDone() == record.checks[i]
      ensures record == old(record).(
                habits := old(record.habits)[i := old(record.habits)[i].(completedAt := if record.checks[i] then now else Zero)],
                checks := old(record.checks)[i := record.checks[i]])
      ensures gridRows == WithSummary(old(gridRows), record.fmtDate, SummaryOf(record.habits))
      ensures store.Contents() == Commit(old(store.Contents()), PutDayBody(old(store.Contents()), record.fmtDate, record.habits), commits).after
      ensures var w := Commit(old(store.Contents()), PutDayBody(old(store.Contents()), record.fmtDate, record.habits), commits);
              errors.errors == if w.result.Ok? then old(errors.errors)
                               else old(errors.errors) + [ErrWidget("saving this day's habits", w.result.error)]
    {
      var value := !record.checks[i];
      var t := Zero;
      if value {
        t := now;
      }
      var item := record.habits[i].(completedAt := t);
      record := record.(habits := record.habits[i := item], checks := record.checks[i := value]);
      assert record.checks == ChecksOf(record.habits);
      SaveCurrentRecord(commits);
    }
  }
}
