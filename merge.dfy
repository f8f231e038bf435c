/** Merging an edited habit template into today's record (main.go:107-121). */
module Merge {
  import opened Results
  import opened Habits

  /** The index of the first habit of the list with the given ID. */
  function FirstWithId(list: seq<Habit>, id: int): Option<nat>
  {
    FirstIndex(list, (h: Habit) => h.id == id)
  }

  /**
   * What the merge emits for one template habit: the first habit of today
   * with its ID when the template habit is not deleted and such a habit
   * exists, and otherwise the template habit itself. A deleted template habit
   * is emitted, not dropped.
   */
  function ResolveOne(t: Habit, today: seq<Habit>): (r: Habit)
    ensures r.id == t.id
    ensures t.IsDeleted() ==> r == t
    ensures !t.IsDeleted() && FirstWithId(today, t.id).Some? ==> r == today[FirstWithId(today, t.id).value]
    ensures (forall j :: 0 <= j < |today| ==> today[j].id != t.id) ==> r == t
  {
    if t.IsDeleted() then t
    else match FirstWithId(today, t.id)
      case Some(j) => today[j]
      case None => t
  }

  /** The merged list: one entry per template habit, in template order. */
  function Resolve(template: seq<Habit>, today: seq<Habit>): seq<Habit>
  {
    if template == [] then []
    else [ResolveOne(template[0], today)] + Resolve(template[1..], today)
  }

  /** The merged list has exactly one entry per template entry, at the same position and with the same ID. */
  lemma {:induction false} ResolveAt(template: seq<Habit>, today: seq<Habit>)
    ensures |Resolve(template, today)| == |template|
    ensures forall i :: 0 <= i < |template| ==> Resolve(template, today)[i] == ResolveOne(template[i], today)
    ensures forall i :: 0 <= i < |template| ==> Resolve(template, today)[i].id == template[i].id
  {
    if template != [] {
      ResolveAt(template[1..], today);
    }
  }

  /**
   * A non-deleted template habit that today already holds keeps today's
   * completion state; one that today does not hold comes out as the template
   * habit, so a fresh template habit comes out not done.
   */
  lemma MergeKeepsCompletion(template: seq<Habit>, today: seq<Habit>, i: nat, j: nat)
    requires i < |template| && j < |today|
    requires !template[i].IsDeleted() && today[j].id == template[i].id
    requires forall k :: 0 <= k < j ==> today[k].id != template[i].id
    ensures |Resolve(template, today)| == |template|
    ensures Resolve(template, today)[i] == today[j]
    ensures Resolve(template, today)[i].IsDone() == today[j].IsDone()
  {
    ResolveAt(template, today);
    var f := FirstWithId(today, template[i].id);
    assert f.Some? && f.value == j;
  }

  /** The nested loop of mergeHabitTemplateWithToday (main.go:107-121). */
  method ResolveAgainstToday(template: seq<Habit>, today: seq<Habit>) returns (resolved: seq<Habit>)
    ensures resolved == Resolve(template, today)
    ensures |resolved| == |template|
    ensures forall i :: 0 <= i < |template| ==> resolved[i].id == template[i].id
  {
    resolved := [];
    for i := 0 to |template|
      invariant |resolved| == i
      invariant forall k :: 0 <= k < i ==> resolved[k] == ResolveOne(template[k], today)
    {
      var t := template[i];
      var current: Option<Habit> := None;
      var j := 0;
      while j < |today|
        invariant 0 <= j <= |today|
        invariant current.None?
        invariant forall k :: 0 <= k < j ==> !(today[k].id == t.id && !t.IsDeleted())
      {
        if today[j].id == t.id && !t.IsDeleted() {
          current := Some(today[j]);
          break;
        }
        j := j + 1;
      }
      if current.Some? {
        var f := FirstWithId(today, t.id);
        assert f.Some? && f.value == j;
        resolved := resolved + [current.value];
      } else {
        resolved := resolved + [t];
      }
    }
    ResolveAt(template, today);
  }
}
