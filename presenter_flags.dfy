/** The flags a phased presenter derives from its event streams
    (Interfaces/Phases/IPhasedPresenterExtensions.cs) and the phase filter
    they use. A flag is a fold over the presenter's signals: it starts with an
    initial value, is raised by one kind of event and lowered by another, and
    the latest such event decides it. */
module PresenterFlags {
  import opened Types
  import opened PhaseRuns

  /** The flags: IsPresenting follows the presentation events, IsLoading the
      Load phase's events, and the transition presenter's IsReady the
      presentation events with the opposite polarity. */
  datatype Flag = Presenting | Loading | Ready

  predicate Raises(f: Flag, e: Signal)
  {
    match f
    case Presenting => e.PresentationStarting?
    case Loading => e.PhaseStarting? && e.id == Load
    case Ready => e.PresentationCompleted?
  }

  predicate Lowers(f: Flag, e: Signal)
  {
    match f
    case Presenting => e.PresentationCompleted?
    case Loading => e.PhaseCompleted? && e.id == Load
    case Ready => e.PresentationStarting?
  }

  /** No event from index `k` on toggles the flag. */
  predicate Quiet(f: Flag, events: seq<Signal>, k: int)
  {
    forall j :: 0 <= j < |events| && k <= j ==> !Raises(f, events[j]) && !Lowers(f, events[j])
  }

  /** `StartWith(initial)` merged with `true` on every raising event and `false`
      on every lowering event: the value after the last event. */
  function Fold(f: Flag, initial: bool, events: seq<Signal>): (r: bool)
    ensures Quiet(f, events, 0) ==> r == initial
    ensures r && !initial ==> exists j :: 0 <= j < |events| && Raises(f, events[j])
    ensures !r && initial ==> exists j :: 0 <= j < |events| && Lowers(f, events[j])
    decreases |events|
  {
    if events == [] then initial
    else
      var last := events[|events| - 1];
      if Raises(f, last) then true
      else if Lowers(f, last) then false
      else Fold(f, initial, events[..|events| - 1])
  }

  /** IsPresenting: false until a presentation starts. */
  function IsPresenting(events: seq<Signal>): (r: bool)
    ensures r <==> exists i :: 0 <= i < |events| && events[i].PresentationStarting? && Quiet(Presenting, events, i + 1)
  {
    FoldIsLastToggle(Presenting, false, events);
    Fold(Presenting, false, events)
  }

  /** IsLoading: false until a Load phase starts. */
  function IsLoading(events: seq<Signal>): (r: bool)
    ensures r <==> exists i :: 0 <= i < |events| && events[i].PhaseStarting? && events[i].id == Load && Quiet(Loading, events, i + 1)
  {
    FoldIsLastToggle(Loading, false, events);
    Fold(Loading, false, events)
  }

  /** The flag is set exactly when some raising event is followed by no toggling
      event, or when no event toggles it and it started set. */
  lemma {:induction false} FoldIsLastToggle(f: Flag, initial: bool, events: seq<Signal>)
    ensures Fold(f, initial, events) <==>
      (exists i :: 0 <= i < |events| && Raises(f, events[i]) && Quiet(f, events, i + 1))
      || (initial && Quiet(f, events, 0))
    decreases |events|
  {
    if events != [] {
      var n := |events| - 1;
      var front := events[..n];
      FoldIsLastToggle(f, initial, front);
      assert forall j :: 0 <= j < n ==> front[j] == events[j];
      if Raises(f, events[n]) {
        assert Quiet(f, events, n + 1);
      } else if Lowers(f, events[n]) {
        forall i | 0 <= i < |events| && Raises(f, events[i])
          ensures !Quiet(f, events, i + 1)
        {
          assert i < n && Lowers(f, events[n]);
        }
      } else {
        if Fold(f, initial, front) {
          if exists i :: 0 <= i < |front| && Raises(f, front[i]) && Quiet(f, front, i + 1) {
            var i :| 0 <= i < |front| && Raises(f, front[i]) && Quiet(f, front, i + 1);
            assert Raises(f, events[i]) && Quiet(f, events, i + 1);
          } else {
            assert Quiet(f, events, 0);
          }
        } else {
          forall i | 0 <= i < |events| && Raises(f, events[i])
            ensures !Quiet(f, events, i + 1)
          {
            assert i < n;
            assert !Quiet(f, front, i + 1);
          }
          assert !Quiet(f, front, 0) || !initial;
        }
      }
    }
  }

  /** Events that toggle nothing leave the flag as it was; in particular
      events of phases other than Load never change IsLoading. */
  lemma {:induction false} QuietEventsKeepFold(f: Flag, initial: bool, events: seq<Signal>, rest: seq<Signal>)
    requires Quiet(f, rest, 0)
    ensures Fold(f, initial, events + rest) == Fold(f, initial, events)
    decreases |rest|
  {
    if rest != [] {
      var n := |rest| - 1;
      assert (events + rest)[..|events + rest| - 1] == events + rest[..n];
      assert !Raises(f, rest[n]) && !Lowers(f, rest[n]);
      assert forall j :: 0 <= j < n ==> rest[..n][j] == rest[j];
      QuietEventsKeepFold(f, initial, events, rest[..n]);
      assert Fold(f, initial, events + rest) == Fold(f, initial, events + rest[..n]);
    } else {
      assert events + rest == events;
    }
  }

  /** The phase events of phase `id` (`OfPhase`): its starting and completed
      events, in their order. */
  predicate OfPhaseId(e: Signal, id: PhaseId)
  {
    (e.PhaseStarting? || e.PhaseCompleted?) && e.id == id
  }

  function OfPhase(events: seq<Signal>, id: PhaseId): (r: seq<Signal>)
    ensures |r| <= |events|
    decreases |events|
  {
    if events == [] then []
    else if OfPhaseId(events[0], id) then [events[0]] + OfPhase(events[1..], id)
    else OfPhase(events[1..], id)
  }

  /** OfPhase keeps exactly the events of the requested phase. */
  lemma {:induction false} OfPhaseKeepsExactly(events: seq<Signal>, id: PhaseId)
    ensures forall e :: e in OfPhase(events, id) <==> e in events && OfPhaseId(e, id)
    decreases |events|
  {
    if events != [] {
      OfPhaseKeepsExactly(events[1..], id);
      assert forall e :: e in events <==> e == events[0] || e in events[1..];
    }
  }

  /** A stream extended by one event filters to the filtered stream, extended
      by that event when it belongs to the phase. */
  lemma {:induction false} OfPhaseSnoc(events: seq<Signal>, e: Signal, id: PhaseId)
    ensures OfPhase(events + [e], id) == OfPhase(events, id) + (if OfPhaseId(e, id) then [e] else [])
    decreases |events|
  {
    if events != [] {
      assert (events + [e])[1..] == events[1..] + [e];
      OfPhaseSnoc(events[1..], e, id);
    } else {
      assert [e][1..] == [];
    }
  }

  /** IsLoading reads only the Load phase's events: folding the whole stream
      or only `OfPhase(Load)` gives the same flag. */
  lemma {:induction false} LoadingSeesOnlyLoadPhase(initial: bool, events: seq<Signal>)
    ensures Fold(Loading, initial, events) == Fold(Loading, initial, OfPhase(events, Load))
    decreases |events|
  {
    if events != [] {
      var n := |events| - 1;
      var front, last := events[..n], events[n];
      assert events == front + [last];
      OfPhaseSnoc(front, last, Load);
      LoadingSeesOnlyLoadPhase(initial, front);
      if OfPhaseId(last, Load) {
        var filtered := OfPhase(front, Load) + [last];
        assert OfPhase(events, Load) == filtered && filtered[|filtered| - 1] == last;
        assert Fold(Loading, initial, events) == last.PhaseStarting?;
        assert Fold(Loading, initial, filtered) == last.PhaseStarting?;
      } else {
        assert !Raises(Loading, last) && !Lowers(Loading, last);
        assert OfPhase(front, Load) + [] == OfPhase(front, Load);
        assert OfPhase(events, Load) == OfPhase(front, Load);
        assert Fold(Loading, initial, events) == Fold(Loading, initial, front);
      }
    }
  }

  /** A stream in which no event toggles the flag is quiet. */
  lemma QuietWhenNoToggleIn(f: Flag, events: seq<Signal>)
    requires forall e | e in events :: !Raises(f, e) && !Lowers(f, e)
    ensures Quiet(f, events, 0)
  {
  }

  /** Once some event has toggled the flag, its initial value no longer
      matters. */
  lemma {:induction false} InitialForgottenAfterToggle(f: Flag, a: bool, b: bool, events: seq<Signal>)
    requires !Quiet(f, events, 0)
    ensures Fold(f, a, events) == Fold(f, b, events)
    decreases |events|
  {
    var n := |events| - 1;
    var last := events[n];
    if !Raises(f, last) && !Lowers(f, last) {
      var front := events[..n];
      assert !Quiet(f, front, 0) by {
        var j :| 0 <= j < |events| && (Raises(f, events[j]) || Lowers(f, events[j]));
        assert j < n && front[j] == events[j];
      }
      InitialForgottenAfterToggle(f, a, b, front);
    }
  }

  /** The transition presenter's IsReady, started at true, is at every point
      the negation of IsPresenting. */
  lemma {:induction false} ReadyIsNotPresenting(events: seq<Signal>)
    ensures Fold(Ready, true, events) == !IsPresenting(events)
    decreases |events|
  {
    if events != [] {
      ReadyIsNotPresenting(events[..|events| - 1]);
    }
  }
}
