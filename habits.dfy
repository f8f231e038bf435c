/** The habit record and the daily summary of a list of habits (main.go). */
module Habits {
  import opened Time

  /** A habit; CompletedAt and DeletedAt are Zero when the habit is not done or not deleted. */
  datatype Habit = Habit(id: int, createdAt: Instant, completedAt: Instant, deletedAt: Instant, content: string)
  {
    predicate IsDone() { completedAt != Zero }
    predicate IsDeleted() { deletedAt != Zero }
  }

  /**
   * The source's PctCompl is the float32 quotient float32(num) / float32(den);
   * the model keeps the two integers and does not divide (0/0 is NaN in the source).
   */
  datatype Ratio = Ratio(num: int, den: int)

  datatype Summary = Summary(numCompl: int, pctCompl: Ratio)

  /** Go's zero dailySummary, which a map lookup of a missing date yields. */
  const ZeroSummary := Summary(0, Ratio(0, 1))

  /** The number of done habits in a list. */
  function CountDone(list: seq<Habit>): nat
  {
    if list == [] then 0
    else CountDone(list[..|list| - 1]) + (if list[|list| - 1].IsDone() then 1 else 0)
  }

  /** The summary newSummaryOfList computes. */
  function SummaryOf(list: seq<Habit>): Summary
  {
    Summary(CountDone(list), Ratio(CountDone(list), |list|))
  }

  /** The completion count lies between 0 and the list length; it is 0 exactly when no habit is done and the length exactly when all are. */
  lemma {:induction false} CountDoneBounds(list: seq<Habit>)
    ensures 0 <= CountDone(list) <= |list|
    ensures CountDone(list) == 0 <==> forall i :: 0 <= i < |list| ==> !list[i].IsDone()
    ensures CountDone(list) == |list| <==> forall i :: 0 <= i < |list| ==> list[i].IsDone()
  {
    if list != [] {
      var init := list[..|list| - 1];
      CountDoneBounds(init);
      assert forall i :: 0 <= i < |init| ==> init[i] == list[i];
    }
  }

  /** Counting done habits in one pass, as newSummaryOfList does (main.go:49-60). */
  method NewSummaryOfList(list: seq<Habit>) returns (s: Summary)
    ensures s.numCompl == CountDone(list) && s.pctCompl == Ratio(s.numCompl, |list|)
    ensures 0 <= s.numCompl <= |list|
  {
    var numCompl := 0;
    for i := 0 to |list|
      invariant numCompl == CountDone(list[..i])
    {
      assert list[..i + 1][..i] == list[..i];
      if list[i].IsDone() {
        numCompl := numCompl + 1;
      }
    }
    assert list[..|list|] == list;
    CountDoneBounds(list);
    s := Summary(numCompl, Ratio(numCompl, |list|));
  }
}
