/** The habit template editor (habits.go). */
module HabitEditor {
  import opened Results
  import opened Time
  import opened Habits
  import opened Storage
  import opened Widgets

  /** The IDs of a template built only by this editor: 1, 2, ..., n in order. */
  ghost predicate SequentialIds(habits: seq<Habit>)
  {
    forall i :: 0 <= i < |habits| ==> habits[i].id == i + 1
  }

  class HabitScreen {
    var store: Store
    var habits: seq<Habit>
    var editorText: string
    var editorFocused: bool
    var errors: ErrorList

    /** The screen the openHabitScreen update installs (main.go:212-220). */
    constructor (store: Store, items: seq<Habit>)
      ensures this.store == store && habits == items
      ensures editorText == "" && !editorFocused
      ensures fresh(errors) && errors.errors == []
    {
      this.store := store;
      habits := items;
      editorText := "";
      editorFocused := false;
      errors := new ErrorList();
    }

    /** The "/" key focuses the new-habit editor (main.go:72-73). */
    method Focus()
      modifies this`editorFocused
      ensures editorFocused
    {
      editorFocused := true;
    }

    /**
     * Submitting the editor (habits.go:102-117): one habit is appended with ID
     * one past the old length, the submitted text, CreatedAt now and neither
     * completed nor deleted; the list is saved as the template and the editor
     * is cleared.
     */
    method Submit(text: string, now: Instant, commits: bool)
      requires store.Valid()
      modifies this`habits, this`editorText, errors, store
      ensures habits == old(habits) + [Habit(|old(habits)| + 1, now, Zero, Zero, text)]
      ensures |habits| == |old(habits)| + 1 && !habits[|habits| - 1].IsDone() && !habits[|habits| - 1].IsDeleted()
      ensures SequentialIds(old(habits)) ==> SequentialIds(habits)
      ensures editorText == ""
      ensures store.Valid()
      ensures store.Contents() == if commits then old(store.Contents()).(meta := old(store.meta)[TemplateKey := Encoded(habits)])
                                  else old(store.Contents())
      ensures errors.errors == if commits then old(errors.errors)
                               else old(errors.errors) + [ErrWidget("saving habits", WriteFailed)]
    {
      habits := habits + [Habit(|habits| + 1, now, Zero, Zero, text)];
      var err := store.PutHabits(habits, commits);
      if err.Some? {
        errors.Add("saving habits", err.value);
      }
      editorText := "";
    }
  }
}
