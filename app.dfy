/** The application's state machine: key handling, screen choice and the update dispatch (main.go). */
module Application {
  import opened Results
  import opened Time
  import opened Habits
  import opened Storage
  import opened Merge
  import opened Widgets
  import opened Home
  import opened HabitEditor

  datatype Key = Slash | Escape | OtherKey

  /** The messages the background work sends to the UI loop (main.go:198-225). */
  datatype Update =
    | SplashErr(err: Error)
    | SplashHandOff(store: Store, summaries: map<string, Summary>, record: DailyRecord)
    | OpenHabitScreen(items: seq<Habit>)
    | ApplyHabitsToToday(habits: seq<Habit>)
    | CloseHabitScreen

  datatype View = SplashView(err: Error) | LoadingView | HabitsView | HomeView

  /** What the outside world contributes to one update: the clock, the calendar and the commit outcomes. */
  datatype Env = Env(now: Instant, today: Day, cal: Calendar, readCommits: bool, writeCommits: bool)

  /** The state the merge touches: the database and the home screen's grid, record and errors. */
  datatype HomeState = HomeState(db: Db, gridRows: seq<GridRow>, record: DailyRecord, errors: seq<ErrWidget>)

  /** The effect of mergeHabitTemplateWithToday (main.go:100-135). */
  function Merged(s: HomeState, template: seq<Habit>, env: Env): HomeState
  {
    var key := env.cal.format(env.now);
    var read := Commit(s.db, DayBody(s.db, key, env.now, env.cal), env.readCommits);
    if read.result.Err? then
      s.(errors := s.errors + [ErrWidget("reading today's habits", read.result.error)])
    else
      var resolved := Resolve(template, read.result.value);
      var write := Commit(read.after, PutDayBody(read.after, key, resolved), env.writeCommits);
      if write.result.Err? then
        s.(db := read.after, errors := s.errors + [ErrWidget("saving today's new habits", write.result.error)])
      else
        s.(db := write.after,
           gridRows := WithSummary(s.gridRows, key, SummaryOf(resolved)),
           record := if s.record.fmtDate == key then s.record.(habits := resolved, checks := ChecksOf(resolved))
                     else s.record)
  }

  /**
   * The merge's guarantees: a failed read changes nothing but the error
   * list; after a successful merge the stored record for today is one entry
   * per template habit, today's stored and cached summaries describe it, a
   * displayed today shows it with matching check boxes, and stored summaries
   * stay consistent with their records.
   */
  lemma MergedSpec(s: HomeState, template: seq<Habit>, env: Env)
    requires SummariesMatchRecords(s.db)
    requires s.record.checks == ChecksOf(s.record.habits)
    ensures var after := Merged(s, template, env);
            var key := env.cal.format(env.now);
            (Commit(s.db, DayBody(s.db, key, env.now, env.cal), env.readCommits).result.Err? ==>
               after == s.(errors := after.errors) && |after.errors| == |s.errors| + 1) &&
            SummariesMatchRecords(after.db) &&
            after.record.checks == ChecksOf(after.record.habits) &&
            (|after.errors| == |s.errors| ==>
               var key := env.cal.format(env.now);
               key in after.db.records && after.db.records[key].Encoded? &&
               |after.db.records[key].value| == |template| &&
               after.db.summaries[key] == Encoded(SummaryOf(after.db.records[key].value)) &&
               after.gridRows == WithSummary(s.gridRows, key, SummaryOf(after.db.records[key].value)) &&
               (s.record.fmtDate == key ==> after.record.habits == after.db.records[key].value))
  {
    var key := env.cal.format(env.now);
    var read := Commit(s.db, DayBody(s.db, key, env.now, env.cal), env.readCommits);
    DayBodyKeepsSummaries(s.db, key, env.now, env.cal, env.readCommits);
    if read.result.Ok? {
      var resolved := Resolve(template, read.result.value);
      ResolveAt(template, read.result.value);
      PutDayKeepsSummaries(read.after, key, resolved, env.writeCommits);
    }
  }

  /**
   * With a coherent calendar, the merge's read of today never fails on the
   * date: the key of now parses and does not lie in the future, so only a
   * decode error or a failed commit can stop it (store.go:101-107).
   */
  lemma MergeReadDateValid(db: Db, env: Env)
    requires Coherent(env.cal)
    ensures var r := DayBody(db, env.cal.format(env.now), env.now, env.cal).result;
            r != Err(BadDate) && r != Err(FutureDate)
  {
    assert env.cal.parse(env.cal.format(env.now)).Some?;
  }

  /**
   * An empty template can never be applied: the summary of the empty list
   * does not encode, so once today's record is read the write fails and
   * "saving today's new habits" is listed, with only the backfill kept.
   */
  lemma MergeEmptyTemplateFails(s: HomeState, env: Env)
    requires Commit(s.db, DayBody(s.db, env.cal.format(env.now), env.now, env.cal), env.readCommits).result.Ok?
    ensures Merged(s, [], env) ==
              s.(db := Commit(s.db, DayBody(s.db, env.cal.format(env.now), env.now, env.cal), env.readCommits).after,
                 errors := s.errors + [ErrWidget("saving today's new habits", EncodeFailed)])
  {
    var key := env.cal.format(env.now);
    var read := Commit(s.db, DayBody(s.db, key, env.now, env.cal), env.readCommits);
    assert Resolve([], read.result.value) == [];
  }

  class App {
    var store: Store?
    var splashErr: Option<Error>
    var home: HomeScreen?
    var habits: HabitScreen?

    /** Once the store is handed off, the home screen shares it and keeps its check boxes in step; the habit screen only exists beside an open store. */
    ghost predicate Valid()
      reads this, home, habits, store
    {
      (store != null ==> home != null && home.store == store && home.Valid()) &&
      (home != null ==> store != null) &&
      (habits != null ==> store != null && habits.store == store)
    }

    /** The store's contents and the home screen's state once the store is handed off, and None before. */
    ghost function Observed(): Option<HomeState>
      reads this, store, home, if home != null then {home.errors} else {}
    {
      if store != null && home != null then Some(HomeStateOf()) else None
    }

    /** The objects an update may change. */
    ghost function Footprint(): set<object?>
      reads this, home
    {
      {this} + (if store != null then {store} else {}) + (if home != null then {home, home.errors} else {})
    }

    ghost function HomeStateOf(): HomeState
      requires store != null && home != null
      reads this, store, home, home.errors
    {
      HomeState(store.Contents(), home.gridRows, home.record, home.errors.errors)
    }

    /** The zero App the UI loop starts with (main.go:194). */
    constructor ()
      ensures store == null && splashErr == None && home == null && habits == null
      ensures Valid() && Screen() == LoadingView
    {
      store, splashErr, home, habits := null, None, null, null;
    }

    /** The screen App.layout draws (main.go:81-98). */
    function Screen(): (v: View)
      reads this
      ensures v.SplashView? <==> store == null && splashErr.Some?
      ensures v.LoadingView? <==> store == null && splashErr.None?
      ensures v.HabitsView? <==> store != null && habits != null
      ensures v.HomeView? <==> store != null && habits == null
    {
      if store == null then
        if splashErr.Some? then SplashView(splashErr.value) else LoadingView
      else if habits != null then HabitsView
      else HomeView
    }

    /** handleKeyEvent (main.go:69-79): keys matter only while the habit screen is open. */
    method HandleKeyEvent(k: Key)
      requires Valid()
      modifies this`habits, habits
      ensures Valid()
      ensures old(habits) == null ==> habits == null && unchanged(this)
      ensures old(habits) != null ==>
                (k == Escape ==> habits == null) &&
                (k == Slash ==> habits == old(habits) && habits.editorFocused) &&
                (k == OtherKey ==> habits == old(habits))
      ensures old(habits) != null && k != Slash ==> unchanged(old(habits))
      ensures old(habits) != null && k == Slash ==>
                habits.habits == old(habits.habits) && habits.editorText == old(habits.editorText) &&
                habits.errors == old(habits.errors) && habits.store == old(habits.store)
      ensures old(habits) != null && k == Escape && store != null ==> Screen() == HomeView
    {
      if habits != null {
        match k
        case Slash => habits.Focus();
        case Escape => habits := null;
        case OtherKey =>
      }
    }

    /** The merge of an edited template into today's record (main.go:100-135). */
    method MergeHabitTemplateWithToday(template: seq<Habit>, env: Env)
      requires Valid() && store != null
      modifies home, home.errors, store
      ensures Valid()
      ensures HomeStateOf() == Merged(old(HomeStateOf()), template, env)
    {
      var fmtDate := env.cal.format(env.now);
      var today := store.GetHabitsForDay(fmtDate, env.now, env.cal, env.readCommits);
      if today.Err? {
        home.errors.Add("reading today's habits", today.error);
        return;
      }
      var resolved := ResolveAgainstToday(template, today.value);
      var err := store.PutHabitsForDay(fmtDate, resolved, env.writeCommits);
      if err.Some? {
        home.errors.Add("saving today's new habits", err.value);
        return;
      }
      var summary := NewSummaryOfList(resolved);
      home.SetSummary(fmtDate, summary);
      if home.record.fmtDate == fmtDate {
        var checks := BuildChecks(resolved);
        home.record := home.record.(checks := checks, habits := resolved);
      }
    }

    /** The update dispatch of the UI loop (main.go:198-225). */
    method Dispatch(u: Update, env: Env)
      requires Valid()
      requires u.SplashHandOff? ==> store == null && u.store.Valid() && u.record.checks == ChecksOf(u.record.habits)
      requires u.OpenHabitScreen? || u.ApplyHabitsToToday? ==> store != null
      modifies Footprint()
      ensures Valid()
      ensures u.SplashErr? ==>
                splashErr == Some(u.err) && store == old(store) && home == old(home) && habits == old(habits) &&
                Observed() == old(Observed())
      ensures u.SplashHandOff? ==>
                store == u.store && fresh(home) && home.store == u.store && home.record == u.record &&
                IsDayGrid(home.gridRows, u.summaries, env.today, env.cal) && home.errors.errors == [] &&
                habits == old(habits) && Screen() == HomeView
      ensures u.OpenHabitScreen? ==>
                fresh(habits) && habits.habits == u.items && habits.store == store && habits.editorText == "" &&
                !habits.editorFocused && habits.errors.errors == [] &&
                store == old(store) && home == old(home) && Screen() == HabitsView &&
                Observed() == old(Observed())
      ensures u.ApplyHabitsToToday? ==>
                store == old(store) && home == old(home) && habits == old(habits) &&
                HomeStateOf() == Merged(old(HomeStateOf()), u.habits, env)
      ensures u.CloseHabitScreen? ==>
                habits == null && store == old(store) && home == old(home) &&
                (store != null ==> Screen() == HomeView) &&
                Observed() == old(Observed())
    {
      match u
      case SplashErr(err) =>
        splashErr := Some(err);
      case SplashHandOff(s, summaries, record) =>
        var rows := NewDayGrid(summaries, env.today, env.cal);
        home := new HomeScreen(s, rows, record);
        store := s;
      case OpenHabitScreen(items) =>
        habits := new HabitScreen(store, items);
      case ApplyHabitsToToday(template) =>
        MergeHabitTemplateWithToday(template, env);
      case CloseHabitScreen =>
        habits := null;
    }

    /** "Apply to Today" (habits.go:25-29): the habit screen's list, sent unchanged, merged into today. */
    method ApplyToTodayClicked(env: Env)
      requires Valid() && habits != null
      modifies Footprint()
      ensures Valid() && store == old(store) && home == old(home) && habits == old(habits)
      ensures HomeStateOf() == Merged(old(HomeStateOf()), old(habits.habits), env)
    {
      Dispatch(ApplyHabitsToToday(habits.habits), env);
    }

    /** "Done" (habits.go:30-34): the habit screen closes and home is shown. */
    method DoneClicked(env: Env)
      requires Valid() && habits != null
      modifies Footprint()
      ensures Valid() && habits == null && Screen() == HomeView
      ensures store == old(store) && home == old(home) && Observed() == old(Observed())
    {
      Dispatch(CloseHabitScreen, env);
    }

    /** "Manage Habits" (home.go:82-91): the template is read and the habit screen opened with it, or an error is listed. */
    method ManageHabitsClicked(env: Env)
      requires Valid() && store != null
      modifies Footprint()
      ensures Valid() && store == old(store) && home == old(home)
      ensures var template := TemplateOf(old(store.Contents()));
              (template.Ok? ==>
                 fresh(habits) && habits.habits == template.value && Screen() == HabitsView &&
                 habits.editorText == "" && !habits.editorFocused && habits.errors.errors == [] &&
                 Observed() == old(Observed())) &&
              (template.Err? ==>
                 habits == old(habits) &&
                 HomeStateOf() == old(HomeStateOf()).(errors := old(home.errors.errors) + [ErrWidget("reading habits", template.error)]))
    {
      var items := home.ManageHabits();
      if items.Some? {
        Dispatch(OpenHabitScreen(items.value), env);
      }
    }
  }
}
