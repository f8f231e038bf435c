# todaily, modelled in Dafny

todaily is a desktop app for tracking daily habits. The user keeps a *habit
template*, the list of habits to do every day. Each calendar day gets a
*day record*: a copy of the template habits that were active on that day,
each of which can be checked off. It also gets a *daily summary*: how many
habits were done, and what fraction that is. The home screen shows:

- a grid of the last six months of days, one row per week, shaded by each
  day's summary;
- the selected day's habits, as check boxes;
- a list of dismissible errors.

A second screen edits the template. "Apply to Today" merges the edited
template into today's record.

The model covers:

- the store: three bbolt buckets holding JSON values, and the transactions
  over them;
- the merge of the template into today's record;
- the App's state machine: updates, key events and the chosen screen;
- the home screen's grid, record and error list;
- the habit editor;
- the rule widget's geometry.

| file | module | models |
|---|---|---|
| `results.dfy` | `Results` | `Option`, the error kinds, `Result` |
| `time.dfy` | `Time` | instants, days, weekdays, month labels, a `Calendar` that stands for Go's `time` package |
| `habits.dfy` | `Habits` | `habit`, `dailySummary`, `newSummaryOfList` (main.go) |
| `storage.dfy` | `Storage` | `store` and its transactions (store.go) |
| `merge.dfy` | `Merge` | the template/today merge loop (main.go) |
| `widgets.dfy` | `Widgets` | `errorList`, `rule` (widgets.go) |
| `home.dfy` | `Home` | the day grid, the day record, `homeScreen` (home.go) |
| `habit_editor.dfy` | `HabitEditor` | `habitScreen` (habits.go) |
| `app.dfy` | `Application` | `App`, the update dispatch, the merge procedure (main.go) |

How the model represents the program:

- **Time.** An instant is an integer, and 0 is Go's zero `time.Time`. A day
  is a day number counted from 1970-01-01. Parsing and formatting the
  `060102` date key, the "Jan 2, 2006" rendering, the day of the month, the
  month, and "six months earlier" are functions supplied in a `Calendar`
  value. The model does not define them.
- **Storage.** A bucket maps keys to a `Blob`. A blob is the encoding of a
  value, an empty byte slice, or bytes that do not decode.
- **Transactions.** Each `db.Update` body is a pure function returning a
  `Txn`, which holds its result and the contents it leaves. `Commit` applies
  it: the result stands only if both the body and the commit succeed, and
  otherwise the contents are rolled back.
- **Faults.** Whether a commit, or the opening of the file, succeeds is a
  boolean parameter.
- **Screens.** Objects whose fields the program updates in place are
  classes: `Store`, `ErrorList`, `HomeScreen`, `HabitScreen` and `App`.
- **Goroutines.** Work the program starts in a goroutine is modelled as a
  call that finishes before the next event.

Behaviour of the code worth knowing, which the model follows:

- **The merge keeps deleted template habits.** A template habit with a
  non-zero DeletedAt is copied into today's record as it is, not dropped
  (main.go:111).
- **The backfill copies every field but CreatedAt.** A backfilled day
  record copies each active template habit with all its fields, including
  CompletedAt and DeletedAt. Only CreatedAt is replaced, by the current
  instant (store.go:117-121).
- **getSummaries hides decode errors.** It stops at the first summary that
  does not decode. It returns the summaries decoded before that one, in the
  bucket's key order, and never reports an error, because the error
  returned from `ForEach` is discarded (store.go:64-77).
- **A read of a day can fail with a write error.** getHabitsForDay runs in
  a read-write transaction, so even when it only reads an existing record
  it can fail at commit (store.go:108).
- **An empty list cannot be saved as a day.** The summary of an empty list
  has PctCompl 0/0, a NaN, which `encoding/json` refuses to encode. So
  putHabitsForDay of an empty list always fails and writes nothing, and
  "Apply to Today" with an empty template always lists "saving today's new
  habits" (main.go:58, store.go:144-146).
- **A file with `meta` but without the other buckets is opened as it is.**
  Bucket initialisation stops as soon as `meta` exists, so such a file
  yields a store that lacks a bucket (store.go:48-50).
- **An empty value counts as present.** An empty value stored under a date
  counts as an existing record: it reads as an empty record and is not
  backfilled (store.go:111, 166-170).

## Model

| member | source | states |
|---|---|---|
| `Time.Weekday` | home.go:347 | the weekday is one of 0..6, and it is 0 (Sunday) exactly on the days congruent to 3 modulo 7, the weeks of 4 January 1970 |
| `Time.MonthAbbrev` | home.go:25-28 | each month label is a three-letter abbreviation |
| `Habits.Habit.IsDone` | main.go:36-38 | a habit is done exactly when its CompletedAt is not the zero time |
| `Habits.Habit.IsDeleted` | main.go:40-42 | a habit is deleted exactly when its DeletedAt is not the zero time |
| `Habits.CountDoneBounds` | main.go:49-55 | the completed count lies between 0 and the list length; it is 0 exactly when no habit is done and the length exactly when all are |
| `Habits.NewSummaryOfList` | main.go:49-60 | NumCompl is the number of done habits and lies within the list length; PctCompl is NumCompl over the list length |
| `Storage.Get` | store.go:166-175 | a missing key or an empty value leaves the target as it was; a stored value decodes to itself; undecodable bytes give a decode error |
| `Storage.Put` | store.go:155-164 | the key holds the encoding of the value, and every other key keeps its value |
| `Storage.GetPut` | store.go:155-175 | what put writes, get reads back, and other keys read as before |
| `Storage.EncodableIffNonEmpty` | main.go:58 | a list's summary can be JSON-encoded exactly when the list is not empty (an empty list gives the NaN 0/0) |
| `Storage.Commit` | store.go:90-96 | a transaction yields Ok exactly when its body succeeds and the commit succeeds; otherwise the contents are rolled back, and a failing body's error is the one reported |
| `Storage.BackfillAppend` | store.go:117-122 | the backfill keeps the template's order (it distributes over concatenation) |
| `Storage.BackfillMembers` | store.go:117-122 | a habit is in a backfilled record iff it is an active template habit with CreatedAt replaced by now; the record is no longer than the template |
| `Storage.BackfillRecord` | store.go:117-122 | the backfill loop produces exactly the active template habits, in order, re-stamped with now |
| `Storage.DayBodyKeepsSummaries` | store.go:108-132 | reading or backfilling a day writes no summary and keeps every stored summary equal to the summary of its record |
| `Storage.PutDayKeepsSummaries` | store.go:135-149 | writing a day keeps summaries consistent with records; it succeeds exactly when it commits and the list is not empty; an empty list fails to encode and writes nothing; on success the stored summary is that of the written record, which reads back unchanged |
| `Storage.BackfillIdempotent` | store.go:108-132 | once a day has been read or backfilled, reading it again at the same or a later instant returns the same record and writes nothing |
| `Storage.DecodedPrefix` | store.go:67-74 | the scan visits a prefix of the bucket's keys whose values all decode, and stops exactly at the first one that does not |
| `Storage.ScannedAll` | store.go:64-77 | when every stored summary decodes, getSummaries returns all of them |
| `Storage.Store.Open` | store.go:43 | the opened store holds the file's buckets and contents |
| `Storage.Store.InitBuckets` | store.go:47-60 | an existing meta bucket leaves the file unchanged, whatever other buckets it has; otherwise the three buckets are created empty, and a bucket that already exists makes it fail with nothing changed; on success meta exists, and all three exist unless meta was already there without the others |
| `Storage.Store.GetHabits` | store.go:79-87 | the template is read: missing or empty gives an empty list, a stored list comes back as stored, bytes that do not decode give a decode error |
| `Storage.Store.PutHabits` | store.go:89-97 | only the template entry changes, it is replaced wholesale, and getHabits then returns the new list; a failed commit changes nothing |
| `Storage.Store.GetHabitsForDay` | store.go:99-133 | a bad or future date fails with nothing written; a stored record is returned; otherwise the backfill of the template is stored and returned; a template read error or a failed commit rolls back |
| `Storage.Store.PutHabitsForDay` | store.go:135-149 | the record and its summary are written together or not at all; an empty list fails with an encode error, a failed commit with a write error, and either failure leaves the database as it was |
| `Storage.Store.GetSummaries` | store.go:64-77 | no error is ever reported; the result is the decoded prefix of the bucket, and every returned summary is the stored one |
| `Storage.OpenStore` | store.go:31-62 | a file that cannot be opened gives an error; a new file that commits gives a store with the three buckets, all empty; a file without meta but with another bucket gives a bucket-exists error; a failed commit gives a write error; a file with meta that commits keeps its buckets and contents; a returned store has all three buckets unless the file had meta without the others |
| `Results.FirstIndex` | main.go:110-115 | finds the first element that satisfies the test (the merge's search by ID, and setSummary's search by date key), and reports none exactly when no element does |
| `Merge.ResolveOne` | main.go:108-120 | the entry keeps the template ID; a deleted template habit is kept as it is; otherwise it is today's first habit with that ID, or the template habit when today has none |
| `Merge.ResolveAt` | main.go:107-121 | the merged list has one entry per template habit, at the same position, with the same ID |
| `Merge.MergeKeepsCompletion` | main.go:107-121 | a non-deleted template habit that today already holds keeps today's entry, and so its completion state |
| `Merge.ResolveAgainstToday` | main.go:107-121 | the nested search loop computes the merged list: same length, same IDs, entries as ResolveOne says |
| `Widgets.SurvivorsSpec` | widgets.go:44-48 | after dismissal, an entry remains iff an unclicked position holds it, and the list shrinks by the number of clicked entries |
| `Widgets.SurvivorsAppend` | widgets.go:44-48 | dismissal keeps the order of the remaining entries (it distributes over concatenation) |
| `Widgets.DismissStep` | widgets.go:44-47 | one step of the backward loop removes entry i exactly when it was clicked, leaving the earlier entries untouched |
| `Widgets.ErrorList.constructor` | widgets.go:35-37 | a new list is empty |
| `Widgets.ErrorList.Add` | widgets.go:39-41 | the new error is appended at the end |
| `Widgets.ErrorList.Dismiss` | widgets.go:43-48 | the backward loop leaves exactly the unclicked entries, in order |
| `Widgets.Rule.Size` | widgets.go:115-126 | the rule spans the maximum along its axis, and its thickness is its width, or 1 when the width is 0 |
| `Home.BuildChecks` | home.go:387-390 | one check box per habit, checked exactly when the habit is done |
| `Home.NewDailyRecord` | home.go:386-401 | a key that does not parse gives the zero record and an error; otherwise the record holds the key, its rendering, the habits, and check boxes that reflect them |
| `Home.FirstMatch` | home.go:310-318 | finds the first cell in row-major order with the date key, and none exactly when no cell has it |
| `Home.WithSummaryCells` | home.go:309-319 | setSummary changes the summary of the first matching cell and nothing else |
| `Home.GridStart` | home.go:345-347 | the grid starts on the Sunday of the week that contains the day six months back |
| `Home.DayGridSundays` | home.go:342-370 | every grid row holds seven days and starts on a Sunday |
| `Home.DayGridConsecutive` | home.go:342-370 | the grid's days are consecutive within a row and across rows |
| `Home.DayGridCoversToday` | home.go:342-370 | with a calendar whose six-months-back day is not after the day, the grid is not empty, and its last row contains today, keyed by today's date and showing its stored summary, or the zero summary |
| `Home.DayGridMonthText` | home.go:355-357 | a row is labelled with a month iff its first day falls in the first seven days of that month |
| `Home.NewDayGrid` | home.go:342-370 | the loop builds consecutive weeks from the grid start until today is covered, each cell showing its date's summary |
| `Home.HomeScreen.constructor` | main.go:204-211 | the home screen takes the handed-off store, grid and record, with no errors, and its check boxes reflect its habits |
| `Home.HomeScreen.SetSummary` | home.go:309-319 | only the first matching cell takes the new summary |
| `Home.HomeScreen.ManageHabits` | home.go:82-91 | the template is returned, or the read error is listed as "reading habits" |
| `Home.HomeScreen.SelectDay` | home.go:287-298 | a failed read lists the error as "selecting day" and keeps the displayed record; otherwise the record shows the day's habits with matching check boxes |
| `Home.HomeScreen.SaveCurrentRecord` | home.go:300-307 | the cached cell summary is updated, then the record and its summary are stored; a failed write, including the encode failure of an empty record, is listed as "saving this day's habits" with its error |
| `Home.HomeScreen.ToggleCheck` | home.go:271-284 | the check box flips; the habit's CompletedAt becomes now when checked and zero when unchecked; check boxes keep reflecting the habits; the record is saved |
| `HabitEditor.HabitScreen.constructor` | main.go:212-220 | the habit screen opens on the given list, with an empty, unfocused editor and no errors |
| `HabitEditor.HabitScreen.Focus` | main.go:72-73 | the editor takes focus |
| `HabitEditor.HabitScreen.Submit` | habits.go:102-117 | one habit is appended with ID one past the old length and the submitted text, not done and not deleted; IDs stay 1..n; the list is saved as the template, or "saving habits" is listed; the editor is cleared |
| `Application.MergedSpec` | main.go:100-135 | a failed read of today adds exactly one error and changes nothing else; the merge keeps summaries consistent with records and check boxes consistent with habits; after a merge with no error, today's record has one entry per template habit, and its stored summary, its grid cell and a displayed today all show it |
| `Application.MergeReadDateValid` | store.go:100-107 | with a coherent calendar, the merge's read of today never fails with a bad or future date |
| `Application.MergeEmptyTemplateFails` | main.go:122-124 | once today is read, applying an empty template fails with the encode error and lists "saving today's new habits", keeping only the backfill |
| `Application.App.constructor` | main.go:194 | the app starts with no store, no error and no habit screen, showing the loading view |
| `Application.App.Screen` | main.go:81-98 | before the hand-off: the splash error, or loading; afterwards: the habit screen when open, else home |
| `Application.App.HandleKeyEvent` | main.go:69-79 | keys matter only on the habit screen: "/" focuses the editor and changes nothing else of the screen, Escape closes the screen, other keys do nothing |
| `Application.App.MergeHabitTemplateWithToday` | main.go:100-135 | the store and the home screen change as the merge procedure defines: read today, resolve, write, then update the cell and a displayed today, stopping at the first error with its description |
| `Application.App.Dispatch` | main.go:198-225 | each update does its one thing: records the splash error, installs the store and a fresh home screen on a new grid, opens the habit screen (on the given list, with an empty, unfocused editor and no errors), merges, or closes the habit screen; apart from the merge, the store's contents and the home screen's grid, record and errors stay as they were |
| `Application.App.ApplyToTodayClicked` | habits.go:25-29 | the habit screen's list, unchanged, is merged into today |
| `Application.App.DoneClicked` | habits.go:30-34 | the habit screen closes and home is shown; the store and the home screen stay as they were |
| `Application.App.ManageHabitsClicked` | home.go:82-91 | the habit screen opens on the stored template, with an empty, unfocused editor and no errors, and with the store and home screen unchanged, or the read error is appended to the home screen's errors and nothing else changes |

## Left out

- `initLoad` (main.go:145-172), the start-up goroutine that produces the first update, is not part of this model. The model takes the update it sends as an input to `Dispatch`.
- Gio layout, painting, fonts, icons, the window and its event loop are left out. So are the frame-time display and the command-line flags. Only each widget's effect on the state is modelled.
- Clicks, check-box changes and key presses are inputs. Gio's event queues are not modelled.
- bbolt file I/O, the page format and locking are left out. The database is three maps, and the success of a commit or an open is a parameter.
- `Close` and `defaultDataDir` are left out. The default-path and `MkdirAll` steps of `openStore` collapse into the one `opens` flag.
- JSON encoding is an exact encoding. The one encoding failure modelled is the NaN summary of an empty list (`Storage.Encodable`). The failure of `json.Marshal` on a `time.Time` whose year lies outside 0..9999 is not modelled, so writing the template never fails to encode.
- Goroutines, races and `invalidate` are left out. Each goroutine's work runs as one call, to completion, before the next event.
- PctCompl in a summary is kept as the pair (NumCompl, length) and never divided, so its float32 value and rounding are not computed. An empty list's 0/0 is kept as `Ratio(0, 0)`, and only its encode failure is modelled (`Storage.Encodable`).
- Go's time zones, `time.Now`, date parsing and formatting, `AddDate` and `Weekday` on local times are represented by the `Calendar` functions. Only the day arithmetic the grid needs is derived in the model.
- Home.HomeScreen.SelectDay: the error branch after `newDailyRecord` (home.go:295-297) is proved unreachable rather than modelled, because getHabitsForDay has already parsed the same key.
- Home.HomeScreen.ToggleCheck requires now to be non-zero, as `time.Now()` always is. It also requires the check boxes to reflect the habits, which every record the program builds does.
- Storage.Store.Valid: the store's operations require all three buckets. On a file that has `meta` but lacks another bucket, the source looks up a nil bucket and panics (store.go:67, 110, 138, 142). The model does not represent that panic; `OpenStore` only states when such a store is returned.
- Storage.Store.GetSummaries takes the bucket's key order as a parameter, because bbolt iterates keys in byte order.
- Application.App.Dispatch requires that the hand-off arrive before the store exists, and that "open habit screen" and "apply to today" arrive after it. The program sends them in that order.
