/** Navigation history (Controls/NavigationControl.cs): the new history each
    push mode produces, the plans of Pop, PopToRoot and PopTo with their guard
    failures, the CanPop rule, and the disposal of the views a new history
    drops. The presentation itself is the transition presenter's; here its
    effect on the control is the loaded target view. */
module Navigation {
  import opened Types
  import opened OptionsExtensions
  import ViewResolution

  /** LINQ Take: the first `n` elements, all of them when there are fewer, none
      when `n` is not positive. */
  function Take<T>(s: seq<T>, n: int): (r: seq<T>)
    ensures |r| == if n <= 0 then 0 else if n < |s| then n else |s|
    ensures r == s[..|r|]
  {
    if n <= 0 then [] else if n < |s| then s[..n] else s
  }

  /** GetNewHistory: a Child push appends the view, a Sibling push replaces
      the last entry (or starts the history when it is empty), and any other
      push mode makes the view the whole history. */
  function GetNewHistory(history: seq<View?>, view: View?, mode: PushMode): (h: seq<View?>)
    ensures |h| >= 1 && h[|h| - 1] == view
    ensures mode == Child ==> h == history + [view]
    ensures mode == Sibling ==> |h| == (if |history| == 0 then 1 else |history|) && h[..|h| - 1] == history[..|h| - 1]
    ensures mode != Child && mode != Sibling ==> h == [view]
  {
    if mode == Child then history + [view]
    else if mode == Sibling then Take(history, |history| - 1) + [view]
    else [view]
  }

  /** Whatever the push mode, the presented view ends up on top of a prefix of
      the old history. */
  lemma NewHistoryIsPrefixPlusView(history: seq<View?>, view: View?, mode: PushMode)
    ensures var h := GetNewHistory(history, view, mode);
      h == h[..|h| - 1] + [view] && h[..|h| - 1] <= history
  {
    var h := GetNewHistory(history, view, mode);
    assert h == h[..|h| - 1] + [h[|h| - 1]];
    if mode == Child {
      assert h[..|h| - 1] == history;
    }
  }

  /** CanPop: more entries than the top-level view alone (or at least one
      when the top-level view may be popped), and the presenter ready. */
  predicate CanPop(count: nat, canPopTopLevelView: bool, isReady: bool): (b: bool)
    ensures b ==> isReady && count >= 1
    ensures isReady && count >= 2 ==> b
    ensures !canPopTopLevelView && count == 1 ==> !b
  {
    count > (if canPopTopLevelView then 0 else 1) && isReady
  }

  /** What a pop presents, backwards, and the history it installs. */
  datatype NavPlan = NavPlan(target: View?, history: seq<View?>)

  datatype NavResult = Planned(plan: NavPlan) | Refused(error: Exception)

  const CannotPop := "Cannot pop at this moment"
  const NotInHistory := "History does not contain view"
  const AlreadyCurrent := "Cannot pop to view because it is already current view"

  /** Pop: refused unless CanPop; otherwise drops the last entry and presents
      the one before it, or null when there is none. */
  function PopPlan(history: seq<View?>, canPopTopLevelView: bool, isReady: bool): (r: NavResult)
    ensures r.Refused? <==> !CanPop(|history|, canPopTopLevelView, isReady)
    ensures r.Refused? ==> r.error == InvalidOperation(CannotPop)
    ensures r.Planned? ==>
      history == r.plan.history + [history[|history| - 1]] &&
      (|history| >= 2 ==> r.plan.target == r.plan.history[|r.plan.history| - 1]) &&
      (|history| < 2 ==> r.plan.target == null && r.plan.history == [])
  {
    if !CanPop(|history|, canPopTopLevelView, isReady) then Refused(InvalidOperation(CannotPop))
    else
      var view := if |history| >= 2 then history[|history| - 2] else null;
      Planned(NavPlan(view, Take(history, |history| - 1)))
  }

  /** PopToRoot: refused unless CanPop; otherwise presents the first entry and
      keeps only it. */
  function PopToRootPlan(history: seq<View?>, canPopTopLevelView: bool, isReady: bool): (r: NavResult)
    ensures r.Refused? <==> !CanPop(|history|, canPopTopLevelView, isReady)
    ensures r.Refused? ==> r.error == InvalidOperation(CannotPop)
    ensures r.Planned? ==> r.plan.target == history[0] && r.plan.history == [history[0]]
  {
    if !CanPop(|history|, canPopTopLevelView, isReady) then Refused(InvalidOperation(CannotPop))
    else Planned(NavPlan(history[0], Take(history, 1)))
  }

  /** PopTo: refused unless CanPop, then refused when the view is not in the
      history or its first occurrence is the last entry; otherwise presents
      the view and keeps the history up to and including its first occurrence. */
  function PopToPlan(history: seq<View?>, view: View?, canPopTopLevelView: bool, isReady: bool): (r: NavResult)
    ensures !CanPop(|history|, canPopTopLevelView, isReady) ==> r == Refused(InvalidOperation(CannotPop))
    ensures CanPop(|history|, canPopTopLevelView, isReady) && view !in history ==>
      r == Refused(InvalidOperation(NotInHistory))
    ensures (CanPop(|history|, canPopTopLevelView, isReady) && view in history &&
             ViewResolution.IndexOf(history, view) == |history| - 1) ==>
      r == Refused(InvalidOperation(AlreadyCurrent))
    ensures r.Planned? <==>
      CanPop(|history|, canPopTopLevelView, isReady) && view in history &&
      ViewResolution.IndexOf(history, view) != |history| - 1
    ensures r.Planned? ==>
      var h := r.plan.history;
      r.plan.target == view && 1 <= |h| < |history| && h <= history &&
      h[|h| - 1] == view && view !in h[..|h| - 1]
  {
    if !CanPop(|history|, canPopTopLevelView, isReady) then Refused(InvalidOperation(CannotPop))
    else
      var index := if view in history then ViewResolution.IndexOf(history, view) as int else -1;
      if index == -1 then Refused(InvalidOperation(NotInHistory))
      else if index == |history| - 1 then Refused(InvalidOperation(AlreadyCurrent))
      else Planned(NavPlan(view, Take(history, index + 1)))
  }

  /** A pop right after a Child push returns to the history before the push
      and presents its top entry. */
  lemma PopUndoesChildPush(history: seq<View?>, view: View?, canPopTopLevelView: bool)
    requires |history| >= 1 || canPopTopLevelView
    ensures PopPlan(GetNewHistory(history, view, Child), canPopTopLevelView, true) ==
      Planned(NavPlan(if |history| >= 1 then history[|history| - 1] else null, history))
  {
    var h := GetNewHistory(history, view, Child);
    assert Take(h, |h| - 1) == history;
  }

  /** PopTo the entry just below the top is Pop: both present it and keep the
      history up to it, when that entry occurs nowhere else below. */
  lemma PopToBelowTopIsPop(history: seq<View?>, canPopTopLevelView: bool, isReady: bool)
    requires |history| >= 2
    requires history[|history| - 2] !in history[..|history| - 2]
    ensures PopToPlan(history, history[|history| - 2], canPopTopLevelView, isReady) ==
      PopPlan(history, canPopTopLevelView, isReady)
  {
    var n := |history|;
    if CanPop(n, canPopTopLevelView, isReady) {
      ViewResolution.IndexOfIsFirst(history, history[n - 2], n - 2);
    }
  }

  /** The number of times `v` occurs in `s`. */
  function Occurrences(s: seq<View?>, v: View): nat
  {
    multiset(s)[v]
  }

  class NavigationControl {
    const canPopTopLevelView: bool
    var history: seq<View?>
    /** The current view (the `_view` reactive property). */
    var view: View?

    constructor (canPopTop: bool)
      ensures canPopTopLevelView == canPopTop && history == [] && view == null
    {
      canPopTopLevelView := canPopTop;
      history, view := [], null;
    }

    /** DisposeDroppedViews: every non-null entry of the old history that the
        new history does not contain has its GameObject destroyed and, when it
        is IDisposable, is disposed, once per occurrence in the old history.
        Retained views and everything else are untouched. */
    method DisposeDroppedViews(previous: seq<View?>, current: seq<View?>)
      modifies set v: View | v in previous && v !in current
      ensures forall v: View | v in previous && v !in current ::
        v.destroyed &&
        v.disposeCount == old(v.disposeCount) + (if v.disposable then Occurrences(previous, v) else 0)
      ensures forall v: View | v in previous && v !in current ::
        v.viewModel == old(v.viewModel) && v.isActive == old(v.isActive) && v.isSelected == old(v.isSelected)
    {
      var i := 0;
      while i < |previous|
        invariant 0 <= i <= |previous|
        invariant forall v: View | v in previous && v !in current ::
          v.disposeCount == old(v.disposeCount) + (if v.disposable then Occurrences(previous[..i], v) else 0)
        invariant forall v: View | v in previous[..i] && v !in current :: v.destroyed
        invariant forall v: View | v in previous && v !in current ::
          v.viewModel == old(v.viewModel) && v.isActive == old(v.isActive) && v.isSelected == old(v.isSelected)
      {
        var x := previous[i];
        assert previous[..i + 1] == previous[..i] + [x];
        if x != null && x !in current {
          x.destroyed := true;
          if x.disposable {
            x.disposeCount := x.disposeCount + 1;
          }
        }
        i := i + 1;
      }
      assert previous[..i] == previous;
    }

    /** The presentation's effect on the control: the pre-presentation action
        clears the current view, the post-presentation action makes the
        loaded view current and installs the new history, which disposes the
        views it drops. */
    method Navigate(target: View?, newHistory: seq<View?>)
      modifies this, set v: View | v in history && v !in newHistory
      ensures view == target && history == newHistory
      ensures forall v: View | v in old(history) && v !in newHistory ::
        v.destroyed &&
        v.disposeCount == old(v.disposeCount) + (if v.disposable then Occurrences(old(history), v) else 0) &&
        v.viewModel == old(v.viewModel) && v.isActive == old(v.isActive) && v.isSelected == old(v.isSelected)
    {
      view := null;
      view := target;
      var previous := history;
      history := newHistory;
      DisposeDroppedViews(previous, newHistory);
    }

    /** Present: throws unless the presenter is ready; otherwise presents and
        installs the history the options' push mode gives for the loaded view. */
    method Present(target: View?, options: Options?, isReady: bool) returns (o: Outcome)
      modifies this, set v: View | v in history && v !in GetNewHistory(history, target, GetPushMode(options))
      ensures !isReady ==>
        o == Threw(InvalidOperation("Cannot present at this moment")) && history == old(history) && view == old(view)
      ensures isReady ==>
        o == Done && view == target && history == GetNewHistory(old(history), target, old(GetPushMode(options)))
      ensures isReady ==> forall v: View | v in old(history) && v !in history ::
        v.destroyed &&
        v.disposeCount == old(v.disposeCount) + (if v.disposable then Occurrences(old(history), v) else 0) &&
        v.viewModel == old(v.viewModel) && v.isActive == old(v.isActive) && v.isSelected == old(v.isSelected)
    {
      if !isReady {
        return Threw(InvalidOperation("Cannot present at this moment"));
      }
      Navigate(target, GetNewHistory(history, target, GetPushMode(options)));
      o := Done;
    }

    /** Runs a pop plan: a refused plan throws and changes nothing; otherwise
        the plan's target is presented and its history installed. */
    method RunPlan(r: NavResult) returns (o: Outcome)
      modifies this, if r.Planned? then set v: View | v in history && v !in r.plan.history else {}
      ensures r.Refused? ==> o == Threw(r.error) && history == old(history) && view == old(view)
      ensures r.Planned? ==> o == Done && view == r.plan.target && history == r.plan.history
      ensures r.Planned? ==> forall v: View | v in old(history) && v !in history ::
        v.destroyed &&
        v.disposeCount == old(v.disposeCount) + (if v.disposable then Occurrences(old(history), v) else 0) &&
        v.viewModel == old(v.viewModel) && v.isActive == old(v.isActive) && v.isSelected == old(v.isSelected)
    {
      if r.Refused? {
        return Threw(r.error);
      }
      Navigate(r.plan.target, r.plan.history);
      o := Done;
    }

    /** Pop: runs the pop plan; the views it drops from the history are disposed. */
    method Pop(isReady: bool) returns (o: Outcome)
      modifies this, var r := PopPlan(history, canPopTopLevelView, isReady); if r.Planned? then set v: View | v in history && v !in r.plan.history else {}
      ensures var r := PopPlan(old(history), canPopTopLevelView, isReady);
        (r.Refused? ==> o == Threw(r.error) && history == old(history) && view == old(view)) &&
        (r.Planned? ==> o == Done && view == r.plan.target && history == r.plan.history)
      ensures PopPlan(old(history), canPopTopLevelView, isReady).Planned? ==> forall v: View | v in old(history) && v !in history ::
        v.destroyed &&
        v.disposeCount == old(v.disposeCount) + (if v.disposable then Occurrences(old(history), v) else 0) &&
        v.viewModel == old(v.viewModel) && v.isActive == old(v.isActive) && v.isSelected == old(v.isSelected)
    {
      o := RunPlan(PopPlan(history, canPopTopLevelView, isReady));
    }

    /** PopToRoot: runs the pop-to-root plan, disposing the dropped views. */
    method PopToRoot(isReady: bool) returns (o: Outcome)
      modifies this, var r := PopToRootPlan(history, canPopTopLevelView, isReady); if r.Planned? then set v: View | v in history && v !in r.plan.history else {}
      ensures var r := PopToRootPlan(old(history), canPopTopLevelView, isReady);
        (r.Refused? ==> o == Threw(r.error) && history == old(history) && view == old(view)) &&
        (r.Planned? ==> o == Done && view == r.plan.target && history == r.plan.history)
      ensures PopToRootPlan(old(history), canPopTopLevelView, isReady).Planned? ==> forall v: View | v in old(history) && v !in history ::
        v.destroyed &&
        v.disposeCount == old(v.disposeCount) + (if v.disposable then Occurrences(old(history), v) else 0) &&
        v.viewModel == old(v.viewModel) && v.isActive == old(v.isActive) && v.isSelected == old(v.isSelected)
    {
      o := RunPlan(PopToRootPlan(history, canPopTopLevelView, isReady));
    }

    /** PopTo: runs the pop-to plan for the target, disposing the dropped views. */
    method PopTo(target: View?, isReady: bool) returns (o: Outcome)
      modifies this, var r := PopToPlan(history, target, canPopTopLevelView, isReady); if r.Planned? then set v: View | v in history && v !in r.plan.history else {}
      ensures var r := PopToPlan(old(history), target, canPopTopLevelView, isReady);
        (r.Refused? ==> o == Threw(r.error) && history == old(history) && view == old(view)) &&
        (r.Planned? ==> o == Done && view == r.plan.target && history == r.plan.history)
      ensures PopToPlan(old(history), target, canPopTopLevelView, isReady).Planned? ==> forall v: View | v in old(history) && v !in history ::
        v.destroyed &&
        v.disposeCount == old(v.disposeCount) + (if v.disposable then Occurrences(old(history), v) else 0) &&
        v.viewModel == old(v.viewModel) && v.isActive == old(v.isActive) && v.isSelected == old(v.isSelected)
    {
      o := RunPlan(PopToPlan(history, target, canPopTopLevelView, isReady));
    }
  }
}
