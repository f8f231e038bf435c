/** The dismissible error list and the rule widget's geometry (widgets.go). */
module Widgets {
  import opened Results

  datatype ErrWidget = ErrWidget(desc: string, err: Error)

  /** The entries whose dismiss button was not clicked, in their order. */
  function Survivors(entries: seq<ErrWidget>, clicked: seq<bool>): seq<ErrWidget>
    requires |clicked| == |entries|
  {
    if entries == [] then []
    else (if clicked[0] then [] else [entries[0]]) + Survivors(entries[1..], clicked[1..])
  }

  function CountClicked(clicked: seq<bool>): nat
  {
    if clicked == [] then 0 else (if clicked[0] then 1 else 0) + CountClicked(clicked[1..])
  }

  /**
   * Dismissal removes exactly the clicked entries: an entry survives iff some
   * unclicked position holds it, the count drops by the number of clicks,
   * and survivors keep their relative order (dismissal distributes over
   * concatenation).
   */
  lemma {:induction false} SurvivorsSpec(entries: seq<ErrWidget>, clicked: seq<bool>, e: ErrWidget)
    requires |clicked| == |entries|
    ensures |Survivors(entries, clicked)| == |entries| - CountClicked(clicked)
    ensures e in Survivors(entries, clicked) <==>
            exists i :: 0 <= i < |entries| && !clicked[i] && entries[i] == e
  {
    if entries != [] {
      SurvivorsSpec(entries[1..], clicked[1..], e);
      if e in Survivors(entries[1..], clicked[1..]) {
        var i :| 0 <= i < |entries[1..]| && !clicked[1..][i] && entries[1..][i] == e;
        assert !clicked[i + 1] && entries[i + 1] == e;
      }
      if exists i :: 0 <= i < |entries| && !clicked[i] && entries[i] == e {
        var i :| 0 <= i < |entries| && !clicked[i] && entries[i] == e;
        if i > 0 {
          assert !clicked[1..][i - 1] && entries[1..][i - 1] == e;
        }
      }
    }
  }

  lemma {:induction false} SurvivorsAppend(a: seq<ErrWidget>, ca: seq<bool>, b: seq<ErrWidget>, cb: seq<bool>)
    requires |ca| == |a| && |cb| == |b|
    ensures Survivors(a + b, ca + cb) == Survivors(a, ca) + Survivors(b, cb)
  {
    if a == [] {
      assert a + b == b && ca + cb == cb;
    } else {
      assert (a + b)[1..] == a[1..] + b;
      assert (ca + cb)[1..] == ca[1..] + cb;
      SurvivorsAppend(a[1..], ca[1..], b, cb);
    }
  }

  /** One step of the backward loop: removing or keeping entry i of the partly dismissed list. */
  lemma DismissStep(all: seq<ErrWidget>, clicked: seq<bool>, i: int, errors: seq<ErrWidget>)
    requires |clicked| == |all| && 0 <= i < |all|
    requires errors == all[..i + 1] + Survivors(all[i + 1..], clicked[i + 1..])
    ensures (if clicked[i] then errors[..i] + errors[i + 1..] else errors)
            == all[..i] + Survivors(all[i..], clicked[i..])
  {
    assert all[i..][1..] == all[i + 1..];
    assert clicked[i..][1..] == clicked[i + 1..];
    assert all[..i + 1] == all[..i] + [all[i]];
    assert errors[..i] == all[..i];
    assert errors[i + 1..] == Survivors(all[i + 1..], clicked[i + 1..]);
  }

  class ErrorList {
    var errors: seq<ErrWidget>

    constructor ()
      ensures errors == []
    {
      errors := [];
    }

    /** add (widgets.go:39-41). */
    method Add(desc: string, err: Error)
      modifies this
      ensures errors == old(errors) + [ErrWidget(desc, err)]
    {
      errors := errors + [ErrWidget(desc, err)];
    }

    /**
     * The backward dismissal loop of layout (widgets.go:44-48); clicked[i]
     * says whether entry i's dismiss button reports a click.
     */
    method Dismiss(clicked: seq<bool>)
      requires |clicked| == |errors|
      modifies this
      ensures errors == Survivors(old(errors), clicked)
    {
      ghost var all := errors;
      var i := |errors| - 1;
      while i >= 0
        invariant -1 <= i < |all|
        invariant errors == all[..i + 1] + Survivors(all[i + 1..], clicked[i + 1..])
      {
        DismissStep(all, clicked, i, errors);
        if clicked[i] {
          errors := errors[..i] + errors[i + 1..];
        }
        i := i - 1;
      }
      assert all[0..] == all && clicked[0..] == clicked;
    }
  }

  datatype Axis = Horizontal | Vertical
  datatype Point = Point(x: int, y: int)

  /** A rule line; its colour is left out. */
  datatype Rule = Rule(width: int, axis: Axis)
  {
    /** The size rule.layout reports for the given maximum constraint (widgets.go:115-126). */
    function Size(max: Point): (size: Point)
      ensures axis == Horizontal ==> size.x == max.x
      ensures axis == Vertical ==> size.y == max.y
      ensures axis == Horizontal ==> size.y == (if width == 0 then 1 else width)
      ensures axis == Vertical ==> size.x == (if width == 0 then 1 else width)
    {
      var w := if width == 0 then 1 else width;
      if axis == Vertical then Point(w, max.y) else Point(max.x, w)
    }
  }
}
