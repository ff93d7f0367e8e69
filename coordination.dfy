/** Coordinations (Phases/CoordinationBase.cs and its two subclasses): a
    coordination can be used once; it creates one performer per phase, all
    reporting to the observer given to Coordinate and all held by its composite
    disposable, and runs them in a fixed order. Each step a coordination awaits
    is taken to complete when awaited, so the whole order runs to its end. */
module Coordinations {
  import opened Types
  import opened PhasePerformers

  /** The phase CreatePerformer builds, as written: the id argument is not used
      and every performer's phase carries PhaseId.Present. */
  function PerformerPhaseAsWritten(id: PhaseId, presentation: Presentation): (p: Phase)
    ensures p.id == Present && p.presentation == presentation
  {
    Phase(Present, presentation)
  }

  /** As written, the seven performers of a coordination cannot be told apart
      by their phase: the Load performer reports itself as a Present phase. */
  lemma AsWrittenLoadPerformerIsNotLoad(presentation: Presentation)
    ensures PerformerPhaseAsWritten(Load, presentation).id != Load
    ensures PerformerPhaseAsWritten(Load, presentation) == PerformerPhaseAsWritten(Construct, presentation)
  {
  }

  /** The phase CreatePerformer evidently intends: the id it is asked for. */
  function PerformerPhase(id: PhaseId, presentation: Presentation): (p: Phase)
    ensures p.id == id && p.presentation == presentation
    ensures id != Present ==> p != PerformerPhaseAsWritten(id, presentation)
  {
    Phase(id, presentation)
  }

  /** How a coordination's performers get their phases: as CoordinationBase
      builds them, every phase carrying PhaseId.Present, or with the id asked
      for, as evidently intended. */
  datatype PhaseBuild = AsWritten | AsIntended

  /** The phase CreatePerformer builds for `id` under the given build. */
  function BuiltPhase(build: PhaseBuild, id: PhaseId, presentation: Presentation): (p: Phase)
    ensures p.presentation == presentation
    ensures p.id == (if build == AsWritten then Present else id)
  {
    match build
    case AsWritten => PerformerPhaseAsWritten(id, presentation)
    case AsIntended => PerformerPhase(id, presentation)
  }

  /** An entry of a coordination's trace, without its presentation: phase
      `id` starts, phase `id` completes, or the observer is completed. */
  datatype Mark = Begins(id: PhaseId) | Ends(id: PhaseId) | ObserverDone

  /** The notification a mark stands for in a coordination of `pr` whose
      performers were built by `build`. */
  function Render(m: Mark, build: PhaseBuild, pr: Presentation): Notification
  {
    match m
    case Begins(id) => OnNext(PhaseStarting(BuiltPhase(build, id, pr)))
    case Ends(id) => OnNext(PhaseCompleted(BuiltPhase(build, id, pr)))
    case ObserverDone => OnCompleted
  }

  /** With the intended phases, distinct marks stand for distinct
      notifications; under either build, only ObserverDone stands for
      OnCompleted. */
  lemma RenderInjective(m1: Mark, m2: Mark, build: PhaseBuild, pr: Presentation)
    requires build == AsIntended || m1 == ObserverDone || m2 == ObserverDone
    ensures Render(m1, build, pr) == Render(m2, build, pr) ==> m1 == m2
  {
  }

  function Rendered(ms: seq<Mark>, build: PhaseBuild, pr: Presentation): (r: seq<Notification>)
    ensures |r| == |ms| && forall i :: 0 <= i < |ms| ==> r[i] == Render(ms[i], build, pr)
  {
    seq(|ms|, i requires 0 <= i < |ms| => Render(ms[i], build, pr))
  }

  lemma RenderedAppend(a: seq<Mark>, b: seq<Mark>, build: PhaseBuild, pr: Presentation)
    ensures Rendered(a + b, build, pr) == Rendered(a, build, pr) + Rendered(b, build, pr)
  {
  }

  /** The mark with its phase forgotten: every phase is taken for Present. */
  function AsPresent(m: Mark): (r: Mark)
    ensures r.ObserverDone? <==> m.ObserverDone?
    ensures r.Begins? <==> m.Begins?
    ensures !r.ObserverDone? ==> r.id == Present
  {
    match m
    case Begins(_) => Begins(Present)
    case Ends(_) => Ends(Present)
    case ObserverDone => ObserverDone
  }

  /** As written, the observer is told what the intended coordination would
      tell it for the same steps all performed by the Present phase: the
      starts and completions keep their places, but not their phases. */
  lemma {:induction false} AsWrittenTraceForgetsPhases(ms: seq<Mark>, pr: Presentation)
    ensures Rendered(ms, AsWritten, pr) == Rendered(seq(|ms|, i requires 0 <= i < |ms| => AsPresent(ms[i])), AsIntended, pr)
  {
    var anonymous := seq(|ms|, i requires 0 <= i < |ms| => AsPresent(ms[i]));
    forall i | 0 <= i < |ms|
      ensures Rendered(ms, AsWritten, pr)[i] == Rendered(anonymous, AsIntended, pr)[i]
    {
      assert anonymous[i] == AsPresent(ms[i]);
    }
  }

  /** Immediate load, up to the transition: present starts, load is performed,
      hide starts, deconstruct is performed. */
  const ImmediateOpening := [Begins(Present), Begins(Load), Ends(Load), Begins(Hide), Begins(Deconstruct), Ends(Deconstruct)]

  /** Immediate load: show starts, the transition is performed, hide completes. */
  const ImmediateMiddle := [Begins(Show), Begins(TransitionPhase), Ends(TransitionPhase), Ends(Hide)]

  /** Delayed load, up to the load: present, hide and deconstruct start, and once
      deconstruct's step is done, show starts. */
  const DelayedOpening := [Begins(Present), Begins(Hide), Begins(Deconstruct), Begins(Show)]

  /** Delayed load: load and the transition are performed, hide completes. */
  const DelayedMiddle := [Begins(Load), Ends(Load), Begins(TransitionPhase), Ends(TransitionPhase), Ends(Hide)]

  /** Both coordinations end alike: construct is performed, show and present
      complete, and the observer is completed. */
  const Closing := [Begins(Construct), Ends(Construct), Ends(Show), Ends(Present), ObserverDone]

  /** The whole trace of an immediate-load coordination. */
  const ImmediateMarks := [Begins(Present), Begins(Load), Ends(Load), Begins(Hide), Begins(Deconstruct), Ends(Deconstruct),
    Begins(Show), Begins(TransitionPhase), Ends(TransitionPhase), Ends(Hide),
    Begins(Construct), Ends(Construct), Ends(Show), Ends(Present), ObserverDone]
  /** The whole trace of a delayed-load coordination. */
  const DelayedMarks := [Begins(Present), Begins(Hide), Begins(Deconstruct), Begins(Show),
    Begins(Load), Ends(Load), Begins(TransitionPhase), Ends(TransitionPhase), Ends(Hide),
    Begins(Construct), Ends(Construct), Ends(Show), Ends(Present), ObserverDone]

  /** The segments the coordinations run make up the whole traces. */
  lemma SegmentsMakeTraces()
    ensures ImmediateMarks == ImmediateOpening + ImmediateMiddle + Closing
    ensures DelayedMarks == DelayedOpening + DelayedMiddle + Closing
  {
  }

  /** Each trace is rendered segment by segment. */
  lemma RenderedSegments(build: PhaseBuild, pr: Presentation)
    ensures Rendered(ImmediateMarks, build, pr) ==
      Rendered(ImmediateOpening, build, pr) + Rendered(ImmediateMiddle, build, pr) + Rendered(Closing, build, pr)
    ensures Rendered(DelayedMarks, build, pr) ==
      Rendered(DelayedOpening, build, pr) + Rendered(DelayedMiddle, build, pr) + Rendered(Closing, build, pr)
  {
    SegmentsMakeTraces();
    RenderedAppend(ImmediateOpening, ImmediateMiddle, build, pr);
    RenderedAppend(ImmediateOpening + ImmediateMiddle, Closing, build, pr);
    RenderedAppend(DelayedOpening, DelayedMiddle, build, pr);
    RenderedAppend(DelayedOpening + DelayedMiddle, Closing, build, pr);
  }

  /** `a` occurs in `t` at index `i` and nowhere else. */
  predicate OnceAt<T(==)>(t: seq<T>, a: T, i: int)
  {
    0 <= i < |t| && t[i] == a && a !in t[..i] && a !in t[i + 1..]
  }

  /** An element that occurs at one index only occurs exactly once. */
  lemma OnceAtCount<T>(t: seq<T>, a: T, i: int)
    requires OnceAt(t, a, i)
    ensures multiset(t)[a] == 1
  {
    assert t == t[..i] + [a] + t[i + 1..];
    assert multiset(t[..i])[a] == 0 && multiset(t[i + 1..])[a] == 0;
  }

  /** `a` and `b` each occur exactly once in `t`, `a` first. */
  predicate OnceBefore<T(==)>(t: seq<T>, a: T, b: T)
  {
    exists i, j :: 0 <= i < j < |t| && OnceAt(t, a, i) && OnceAt(t, b, j)
  }

  /** Rendering a prefix or suffix of marks gives the prefix or suffix of the
      rendered marks. */
  lemma RenderedSlices(ms: seq<Mark>, i: int, build: PhaseBuild, pr: Presentation)
    requires 0 <= i <= |ms|
    ensures Rendered(ms, build, pr)[..i] == Rendered(ms[..i], build, pr)
    ensures Rendered(ms, build, pr)[i..] == Rendered(ms[i..], build, pr)
  {
  }

  /** A mark that occurs once, at `i`, stands for a notification that occurs
      once in the rendered trace, at `i`, when the phases are the intended ones
      or the mark is ObserverDone. */
  lemma RenderedOnceAt(ms: seq<Mark>, a: Mark, i: int, build: PhaseBuild, pr: Presentation)
    requires OnceAt(ms, a, i) && (build == AsIntended || a == ObserverDone)
    ensures OnceAt(Rendered(ms, build, pr), Render(a, build, pr), i)
  {
    RenderedSlices(ms, i, build, pr);
    RenderedSlices(ms, i + 1, build, pr);
    forall m | m in ms[..i] + ms[i + 1..]
      ensures Render(m, build, pr) != Render(a, build, pr)
    {
      RenderInjective(m, a, build, pr);
    }
  }

  /** So, with the intended phases, an order proved on marks holds of the
      notifications the observer gets. */
  lemma RenderedKeepsOrder(ms: seq<Mark>, a: Mark, b: Mark, pr: Presentation)
    requires OnceBefore(ms, a, b)
    ensures OnceBefore(Rendered(ms, AsIntended, pr), Render(a, AsIntended, pr), Render(b, AsIntended, pr))
  {
    var i, j :| 0 <= i < j < |ms| && OnceAt(ms, a, i) && OnceAt(ms, b, j);
    RenderedOnceAt(ms, a, i, AsIntended, pr);
    RenderedOnceAt(ms, b, j, AsIntended, pr);
  }

  const SevenPhases := [Present, Construct, Deconstruct, Show, Hide, Load, TransitionPhase]

  /** `pos` gives the index of every entry of `t`, so no entry occurs twice. */
  predicate Tabulated(t: seq<Mark>, pos: Mark -> int)
  {
    forall k :: 0 <= k < |t| ==> pos(t[k]) == k
  }

  /** In a tabulated trace every entry occurs exactly once. */
  lemma TabulatedOnce(t: seq<Mark>, pos: Mark -> int, k: int)
    requires Tabulated(t, pos) && 0 <= k < |t|
    ensures OnceAt(t, t[k], k)
  {
    forall j | 0 <= j < |t| && j != k
      ensures t[j] != t[k]
    {
      assert pos(t[j]) == j && pos(t[k]) == k;
    }
    assert forall j :: 0 <= j < k ==> t[..k][j] == t[j];
    assert forall j :: k + 1 <= j < |t| ==> t[k + 1..][j - k - 1] == t[j];
  }

  /** In a tabulated trace, a mark the table places before another occurs once,
      before the other, which occurs once too. */
  lemma TabulatedOrder(t: seq<Mark>, pos: Mark -> int, a: Mark, b: Mark)
    requires Tabulated(t, pos)
    requires 0 <= pos(a) < pos(b) < |t| && t[pos(a)] == a && t[pos(b)] == b
    ensures OnceBefore(t, a, b)
  {
    TabulatedOnce(t, pos, pos(a));
    TabulatedOnce(t, pos, pos(b));
  }

  /** A mark the table places nowhere does not occur. */
  lemma TabulatedAbsent(t: seq<Mark>, pos: Mark -> int, a: Mark)
    requires Tabulated(t, pos) && pos(a) < 0
    ensures a !in t
  {
    forall k | 0 <= k < |t|
      ensures t[k] != a
    {
      assert pos(t[k]) == k;
    }
  }

  /** Where each mark sits in ImmediateMarks (-1: nowhere). */
  function ImmediatePosition(m: Mark): int
  {
    match m
    case Begins(Present) => 0
    case Begins(Load) => 1
    case Ends(Load) => 2
    case Begins(Hide) => 3
    case Begins(Deconstruct) => 4
    case Ends(Deconstruct) => 5
    case Begins(Show) => 6
    case Begins(TransitionPhase) => 7
    case Ends(TransitionPhase) => 8
    case Ends(Hide) => 9
    case Begins(Construct) => 10
    case Ends(Construct) => 11
    case Ends(Show) => 12
    case Ends(Present) => 13
    case ObserverDone => 14
    case _ => -1
  }

  /** Where each mark sits in DelayedMarks (-1: nowhere). */
  function DelayedPosition(m: Mark): int
  {
    match m
    case Begins(Present) => 0
    case Begins(Hide) => 1
    case Begins(Deconstruct) => 2
    case Begins(Show) => 3
    case Begins(Load) => 4
    case Ends(Load) => 5
    case Begins(TransitionPhase) => 6
    case Ends(TransitionPhase) => 7
    case Ends(Hide) => 8
    case Begins(Construct) => 9
    case Ends(Construct) => 10
    case Ends(Show) => 11
    case Ends(Present) => 12
    case ObserverDone => 13
    case _ => -1
  }

  lemma ImmediateTabulated()
    ensures Tabulated(ImmediateMarks, ImmediatePosition)
  {
  }

  lemma DelayedTabulated()
    ensures Tabulated(DelayedMarks, DelayedPosition)
  {
  }

  /** Immediate load: present is started first and completed after everything
      but OnCompleted. */
  lemma ImmediatePresentBrackets()
    ensures ImmediateMarks[0] == Begins(Present) && ImmediateMarks[|ImmediateMarks| - 2] == Ends(Present)
    ensures OnceBefore(ImmediateMarks, Begins(Present), Ends(Present))
  {
    ImmediateTabulated();
    assert OnceBefore(ImmediateMarks, Begins(Present), Ends(Present)) by {
      TabulatedOrder(ImmediateMarks, ImmediatePosition, Begins(Present), Ends(Present));
    }
  }

  /** Immediate load: load completes before hide starts and before deconstruct
      starts. */
  lemma ImmediateLoadBeforeHideAndDeconstruct()
    ensures OnceBefore(ImmediateMarks, Ends(Load), Begins(Hide))
    ensures OnceBefore(ImmediateMarks, Ends(Load), Begins(Deconstruct))
  {
    ImmediateTabulated();
    assert OnceBefore(ImmediateMarks, Ends(Load), Begins(Hide)) by {
      TabulatedOrder(ImmediateMarks, ImmediatePosition, Ends(Load), Begins(Hide));
    }
    assert OnceBefore(ImmediateMarks, Ends(Load), Begins(Deconstruct)) by {
      TabulatedOrder(ImmediateMarks, ImmediatePosition, Ends(Load), Begins(Deconstruct));
    }
  }

  /** Immediate load: show starts after deconstruct completes and before the
      transition starts. */
  lemma ImmediateShowBetweenDeconstructAndTransition()
    ensures OnceBefore(ImmediateMarks, Ends(Deconstruct), Begins(Show))
    ensures OnceBefore(ImmediateMarks, Begins(Show), Begins(TransitionPhase))
  {
    ImmediateTabulated();
    assert OnceBefore(ImmediateMarks, Ends(Deconstruct), Begins(Show)) by {
      TabulatedOrder(ImmediateMarks, ImmediatePosition, Ends(Deconstruct), Begins(Show));
    }
    assert OnceBefore(ImmediateMarks, Begins(Show), Begins(TransitionPhase)) by {
      TabulatedOrder(ImmediateMarks, ImmediatePosition, Begins(Show), Begins(TransitionPhase));
    }
  }

  /** Immediate load: hide completes after the transition completes and before
      construct starts. */
  lemma ImmediateHideAfterTransition()
    ensures OnceBefore(ImmediateMarks, Ends(TransitionPhase), Ends(Hide))
    ensures OnceBefore(ImmediateMarks, Ends(Hide), Begins(Construct))
  {
    ImmediateTabulated();
    assert OnceBefore(ImmediateMarks, Ends(TransitionPhase), Ends(Hide)) by {
      TabulatedOrder(ImmediateMarks, ImmediatePosition, Ends(TransitionPhase), Ends(Hide));
    }
    assert OnceBefore(ImmediateMarks, Ends(Hide), Begins(Construct)) by {
      TabulatedOrder(ImmediateMarks, ImmediatePosition, Ends(Hide), Begins(Construct));
    }
  }

  /** Immediate load: each of the seven phases is started once and then
      completed once, and OnCompleted comes once and last; a trace of marks has
      no cancellation, so no phase is cancelled. */
  lemma ImmediateEachPhaseOnce()
    ensures forall id :: id in SevenPhases ==> OnceBefore(ImmediateMarks, Begins(id), Ends(id))
    ensures |ImmediateMarks| == 2 * |SevenPhases| + 1
    ensures OnceAt(ImmediateMarks, ObserverDone, |ImmediateMarks| - 1)
  {
    ImmediateTabulated();
    forall id | id in SevenPhases
      ensures OnceBefore(ImmediateMarks, Begins(id), Ends(id))
    {
      TabulatedOrder(ImmediateMarks, ImmediatePosition, Begins(id), Ends(id));
    }
    TabulatedOnce(ImmediateMarks, ImmediatePosition, 14);
  }

  /** Delayed load: present, hide and deconstruct are started first, in that
      order; show starts after deconstruct and before load. */
  lemma DelayedOpeningOrder()
    ensures DelayedMarks[..3] == [Begins(Present), Begins(Hide), Begins(Deconstruct)]
    ensures OnceBefore(DelayedMarks, Begins(Deconstruct), Begins(Show))
    ensures OnceBefore(DelayedMarks, Begins(Show), Begins(Load))
  {
    DelayedTabulated();
    assert OnceBefore(DelayedMarks, Begins(Deconstruct), Begins(Show)) by {
      TabulatedOrder(DelayedMarks, DelayedPosition, Begins(Deconstruct), Begins(Show));
    }
    assert OnceBefore(DelayedMarks, Begins(Show), Begins(Load)) by {
      TabulatedOrder(DelayedMarks, DelayedPosition, Begins(Show), Begins(Load));
    }
  }

  /** Delayed load: the transition starts after load completes; hide completes
      after the transition and before construct starts. */
  lemma DelayedTransitionAfterLoad()
    ensures OnceBefore(DelayedMarks, Ends(Load), Begins(TransitionPhase))
    ensures OnceBefore(DelayedMarks, Ends(TransitionPhase), Ends(Hide))
    ensures OnceBefore(DelayedMarks, Ends(Hide), Begins(Construct))
  {
    DelayedOrder(Ends(Load), Begins(TransitionPhase));
    DelayedOrder(Ends(TransitionPhase), Ends(Hide));
    DelayedOrder(Ends(Hide), Begins(Construct));
  }

  /** An order the position table gives is an order of DelayedMarks. */
  lemma DelayedOrder(a: Mark, b: Mark)
    requires 0 <= DelayedPosition(a) < DelayedPosition(b)
    ensures OnceBefore(DelayedMarks, a, b)
  {
    DelayedTabulated();
    DelayedIndexed(a);
    DelayedIndexed(b);
    TabulatedOrder(DelayedMarks, DelayedPosition, a, b);
  }

  /** The table places every mark it places at its index in DelayedMarks. */
  lemma DelayedIndexed(m: Mark)
    requires DelayedPosition(m) >= 0
    ensures DelayedPosition(m) < |DelayedMarks| && DelayedMarks[DelayedPosition(m)] == m
  {
  }

  /** Delayed load: show and present complete last, then OnCompleted, and
      deconstruct is started once and never completed. */
  lemma DelayedEnding()
    ensures DelayedMarks[|DelayedMarks| - 3..] == [Ends(Show), Ends(Present), ObserverDone]
    ensures Ends(Deconstruct) !in DelayedMarks && OnceAt(DelayedMarks, Begins(Deconstruct), 2)
  {
    DelayedTabulated();
    TabulatedAbsent(DelayedMarks, DelayedPosition, Ends(Deconstruct));
    TabulatedOnce(DelayedMarks, DelayedPosition, 2);
  }

  /** Delayed load: every phase but deconstruct is started once and then
      completed once. */
  lemma DelayedEachOtherPhaseOnce()
    ensures forall id :: id in SevenPhases && id != Deconstruct ==> OnceBefore(DelayedMarks, Begins(id), Ends(id))
  {
    DelayedTabulated();
    forall id | id in SevenPhases && id != Deconstruct
      ensures OnceBefore(DelayedMarks, Begins(id), Ends(id))
    {
      TabulatedOrder(DelayedMarks, DelayedPosition, Begins(id), Ends(id));
    }
  }

  /** What the observer of an immediate-load coordination with the intended
      phases sees: load's completion once, before hide's and deconstruct's
      starts, and the transition's completion once, before hide's. */
  lemma ImmediateObservedOrder(pr: Presentation)
    ensures OnceBefore(TraceOf(ImmediateLoad, AsIntended, pr),
      OnNext(PhaseCompleted(PerformerPhase(Load, pr))), OnNext(PhaseStarting(PerformerPhase(Hide, pr))))
    ensures OnceBefore(TraceOf(ImmediateLoad, AsIntended, pr),
      OnNext(PhaseCompleted(PerformerPhase(Load, pr))), OnNext(PhaseStarting(PerformerPhase(Deconstruct, pr))))
    ensures OnceBefore(TraceOf(ImmediateLoad, AsIntended, pr),
      OnNext(PhaseCompleted(PerformerPhase(TransitionPhase, pr))), OnNext(PhaseCompleted(PerformerPhase(Hide, pr))))
  {
    assert OnceBefore(TraceOf(ImmediateLoad, AsIntended, pr), Render(Ends(Load), AsIntended, pr), Render(Begins(Hide), AsIntended, pr)) by {
      ImmediateLoadBeforeHideAndDeconstruct();
      ObservedOrder(ImmediateLoad, Ends(Load), Begins(Hide), pr);
    }
    assert OnceBefore(TraceOf(ImmediateLoad, AsIntended, pr), Render(Ends(Load), AsIntended, pr), Render(Begins(Deconstruct), AsIntended, pr)) by {
      ImmediateLoadBeforeHideAndDeconstruct();
      ObservedOrder(ImmediateLoad, Ends(Load), Begins(Deconstruct), pr);
    }
    assert OnceBefore(TraceOf(ImmediateLoad, AsIntended, pr), Render(Ends(TransitionPhase), AsIntended, pr), Render(Ends(Hide), AsIntended, pr)) by {
      ImmediateHideAfterTransition();
      ObservedOrder(ImmediateLoad, Ends(TransitionPhase), Ends(Hide), pr);
    }
  }

  /** What the observer of a delayed-load coordination with the intended
      phases sees: deconstruct's start once, before show's, and load's
      completion once, before the transition's start. */
  lemma DelayedObservedOrder(pr: Presentation)
    ensures OnceBefore(TraceOf(DelayedLoad, AsIntended, pr),
      OnNext(PhaseStarting(PerformerPhase(Deconstruct, pr))), OnNext(PhaseStarting(PerformerPhase(Show, pr))))
    ensures OnceBefore(TraceOf(DelayedLoad, AsIntended, pr),
      OnNext(PhaseCompleted(PerformerPhase(Load, pr))), OnNext(PhaseStarting(PerformerPhase(TransitionPhase, pr))))
  {
    assert OnceBefore(TraceOf(DelayedLoad, AsIntended, pr), Render(Begins(Deconstruct), AsIntended, pr), Render(Begins(Show), AsIntended, pr)) by {
      DelayedOpeningOrder();
      ObservedOrder(DelayedLoad, Begins(Deconstruct), Begins(Show), pr);
    }
    assert OnceBefore(TraceOf(DelayedLoad, AsIntended, pr), Render(Ends(Load), AsIntended, pr), Render(Begins(TransitionPhase), AsIntended, pr)) by {
      DelayedTransitionAfterLoad();
      ObservedOrder(DelayedLoad, Ends(Load), Begins(TransitionPhase), pr);
    }
  }

  /** An order of marks in a coordination's trace, with the intended phases,
      is an order of the notifications its observer gets. */
  lemma ObservedOrder(kind: CoordinationKind, a: Mark, b: Mark, pr: Presentation)
    requires OnceBefore(MarksOf(kind), a, b)
    ensures OnceBefore(TraceOf(kind, AsIntended, pr), Render(a, AsIntended, pr), Render(b, AsIntended, pr))
  {
    RenderedKeepsOrder(MarksOf(kind), a, b, pr);
  }

  /** Under either build, the observer is completed exactly once, by the last
      notification of the trace. */
  lemma ObserverCompletedOnceAndLast(kind: CoordinationKind, build: PhaseBuild, pr: Presentation)
    ensures var t := TraceOf(kind, build, pr);
      |t| > 0 && OnceAt(t, OnCompleted, |t| - 1) && multiset(t)[OnCompleted] == 1
  {
    var ms := MarksOf(kind);
    if kind == ImmediateLoad {
      ImmediateTabulated();
      TabulatedOnce(ms, ImmediatePosition, |ms| - 1);
    } else {
      DelayedTabulated();
      TabulatedOnce(ms, DelayedPosition, |ms| - 1);
    }
    RenderedOnceAt(ms, ObserverDone, |ms| - 1, build, pr);
    OnceAtCount(TraceOf(kind, build, pr), OnCompleted, |ms| - 1);
  }

  /** As written, every phase the observer is told of is a Present phase, so
      the Load performer's start cannot be told from the Construct
      performer's. */
  lemma AsWrittenObserverSeesOnlyPresent(kind: CoordinationKind, pr: Presentation)
    ensures forall n :: n in TraceOf(kind, AsWritten, pr) && n.OnNext? ==> n.event.phase == Phase(Present, pr)
    ensures OnNext(PhaseStarting(BuiltPhase(AsWritten, Load, pr))) == OnNext(PhaseStarting(BuiltPhase(AsWritten, Construct, pr)))
  {
  }

  /** A performer created for the phase, not yet started. */
  predicate Unstarted(p: PhasePerformer)
    reads p
  {
    p.state == PhaseReady && !p.stepCompleted && !p.completeOnStep && !p.disposed
  }

  /** `seq.AddAction(() => p.Start())` on a performer not yet started. */
  method StartStep(p: PhasePerformer)
    requires Unstarted(p)
    modifies p, p.observer
    ensures p.state == Started && p.stepSubscribed && !p.stepCompleted && !p.completeOnStep && !p.disposed
    ensures p.observer.notifications == old(p.observer.notifications) + [OnNext(PhaseStarting(p.phase))]
  {
    var o := p.Start();
  }

  /** `seq.AddAction(() => p.Complete())` on a started performer. */
  method CompleteStep(p: PhasePerformer)
    requires p.state == Started
    modifies p, p.observer
    ensures p.state == Completed
    ensures p.observer.notifications == old(p.observer.notifications) + [OnNext(PhaseCompleted(p.phase))]
  {
    var o := p.Complete();
  }

  /** `seq.Add(() => p.Perform())`: the performer starts, the sequence waits
      for its step, and the performer completes. */
  method PerformStep(p: PhasePerformer)
    requires Unstarted(p)
    modifies p, p.observer
    ensures p.state == Completed && p.stepCompleted
    ensures p.observer.notifications ==
      old(p.observer.notifications) + [OnNext(PhaseStarting(p.phase)), OnNext(PhaseCompleted(p.phase))]
  {
    var o := p.Perform();
    o := p.StepCompletes();
  }

  /** `seq.AddWaitUntil(p.Completed)`: the sequence waits for the step of a
      started performer; the performer itself is not completed. */
  method AwaitStep(p: PhasePerformer)
    requires p.state == Started && p.stepSubscribed && !p.stepCompleted && !p.completeOnStep && !p.disposed
    modifies p, p.observer
    ensures p.observer.notifications == old(p.observer.notifications)
    ensures p.state == Started && p.stepCompleted
  {
    var o := p.StepCompletes();
  }

  /** The immediate-load steps up to the transition. */
  method RunImmediateOpening(present: PhasePerformer, load: PhasePerformer, hiding: PhasePerformer,
                             deconstruct: PhasePerformer, obs: EventLog, build: PhaseBuild, pr: Presentation)
    requires present != load && present != hiding && present != deconstruct
    requires load != hiding && load != deconstruct && hiding != deconstruct
    requires present.observer == obs && load.observer == obs && hiding.observer == obs && deconstruct.observer == obs
    requires present.phase == BuiltPhase(build, Present, pr) && load.phase == BuiltPhase(build, Load, pr)
    requires hiding.phase == BuiltPhase(build, Hide, pr) && deconstruct.phase == BuiltPhase(build, Deconstruct, pr)
    requires Unstarted(present) && Unstarted(load) && Unstarted(hiding) && Unstarted(deconstruct)
    modifies present, load, hiding, deconstruct, obs
    ensures obs.notifications == old(obs.notifications) + Rendered(ImmediateOpening, build, pr)
    ensures present.state == Started && hiding.state == Started
    ensures load.state == Completed && deconstruct.state == Completed
  {
    StartStep(present);
    PerformStep(load);
    StartStep(hiding);
    PerformStep(deconstruct);
  }

  /** The immediate-load transition steps. */
  method RunImmediateMiddle(show: PhasePerformer, transition: PhasePerformer, hiding: PhasePerformer,
                            obs: EventLog, build: PhaseBuild, pr: Presentation)
    requires show != transition && show != hiding && transition != hiding
    requires show.observer == obs && transition.observer == obs && hiding.observer == obs
    requires show.phase == BuiltPhase(build, Show, pr) && transition.phase == BuiltPhase(build, TransitionPhase, pr)
    requires hiding.phase == BuiltPhase(build, Hide, pr)
    requires Unstarted(show) && Unstarted(transition) && hiding.state == Started
    modifies show, transition, hiding, obs
    ensures obs.notifications == old(obs.notifications) + Rendered(ImmediateMiddle, build, pr)
    ensures show.state == Started && transition.state == Completed && hiding.state == Completed
  {
    StartStep(show);
    PerformStep(transition);
    CompleteStep(hiding);
  }

  /** The delayed-load steps up to the load. */
  method RunDelayedOpening(present: PhasePerformer, hiding: PhasePerformer, deconstruct: PhasePerformer,
                           show: PhasePerformer, obs: EventLog, build: PhaseBuild, pr: Presentation)
    requires present != hiding && present != deconstruct && present != show
    requires hiding != deconstruct && hiding != show && deconstruct != show
    requires present.observer == obs && hiding.observer == obs && deconstruct.observer == obs && show.observer == obs
    requires present.phase == BuiltPhase(build, Present, pr) && hiding.phase == BuiltPhase(build, Hide, pr)
    requires deconstruct.phase == BuiltPhase(build, Deconstruct, pr) && show.phase == BuiltPhase(build, Show, pr)
    requires Unstarted(present) && Unstarted(hiding) && Unstarted(deconstruct) && Unstarted(show)
    modifies present, hiding, deconstruct, show, obs
    ensures obs.notifications == old(obs.notifications) + Rendered(DelayedOpening, build, pr)
    ensures present.state == Started && hiding.state == Started
    ensures deconstruct.state == Started && deconstruct.stepCompleted && show.state == Started
  {
    StartStep(present);
    StartStep(hiding);
    StartStep(deconstruct);
    AwaitStep(deconstruct);
    StartStep(show);
  }

  /** The delayed-load load and transition steps. */
  method RunDelayedMiddle(load: PhasePerformer, transition: PhasePerformer, hiding: PhasePerformer,
                          obs: EventLog, build: PhaseBuild, pr: Presentation)
    requires load != transition && load != hiding && transition != hiding
    requires load.observer == obs && transition.observer == obs && hiding.observer == obs
    requires load.phase == BuiltPhase(build, Load, pr) && transition.phase == BuiltPhase(build, TransitionPhase, pr)
    requires hiding.phase == BuiltPhase(build, Hide, pr)
    requires Unstarted(load) && Unstarted(transition) && hiding.state == Started
    modifies load, transition, hiding, obs
    ensures obs.notifications == old(obs.notifications) + Rendered(DelayedMiddle, build, pr)
    ensures load.state == Completed && transition.state == Completed && hiding.state == Completed
  {
    PerformStep(load);
    PerformStep(transition);
    CompleteStep(hiding);
  }

  /** The final steps of both coordinations. */
  method RunClosing(construct: PhasePerformer, show: PhasePerformer, present: PhasePerformer,
                    obs: EventLog, build: PhaseBuild, pr: Presentation)
    requires construct != show && construct != present && show != present
    requires construct.observer == obs && show.observer == obs && present.observer == obs
    requires construct.phase == BuiltPhase(build, Construct, pr) && show.phase == BuiltPhase(build, Show, pr)
    requires present.phase == BuiltPhase(build, Present, pr)
    requires Unstarted(construct) && show.state == Started && present.state == Started
    modifies construct, show, present, obs
    ensures obs.notifications == old(obs.notifications) + Rendered(Closing, build, pr)
    ensures construct.state == Completed && show.state == Completed && present.state == Completed
  {
    PerformStep(construct);
    CompleteStep(show);
    CompleteStep(present);
    obs.Notify(OnCompleted);
  }

  /** The seven performers of a coordination are distinct, report to `obs`,
      and carry their phases of `pr`. */
  predicate Cast(present: PhasePerformer, construct: PhasePerformer, deconstruct: PhasePerformer,
                 show: PhasePerformer, hiding: PhasePerformer, load: PhasePerformer,
                 transition: PhasePerformer, obs: EventLog, build: PhaseBuild, pr: Presentation)
    reads present, construct, deconstruct, show, hiding, load, transition
  {
    && present != construct && present != deconstruct && present != show
    && present != hiding && present != load && present != transition
    && construct != deconstruct && construct != show && construct != hiding
    && construct != load && construct != transition
    && deconstruct != show && deconstruct != hiding && deconstruct != load && deconstruct != transition
    && show != hiding && show != load && show != transition
    && hiding != load && hiding != transition && load != transition
    && present.observer == obs && construct.observer == obs && deconstruct.observer == obs
    && show.observer == obs && hiding.observer == obs && load.observer == obs && transition.observer == obs
    && present.phase == BuiltPhase(build, Present, pr) && construct.phase == BuiltPhase(build, Construct, pr)
    && deconstruct.phase == BuiltPhase(build, Deconstruct, pr) && show.phase == BuiltPhase(build, Show, pr)
    && hiding.phase == BuiltPhase(build, Hide, pr) && load.phase == BuiltPhase(build, Load, pr)
    && transition.phase == BuiltPhase(build, TransitionPhase, pr)
  }

  /** ImmediateLoadTransitionCoordination's sequence: present starts, load is
      performed, hide starts, deconstruct is performed, show starts, the
      transition is performed, hide completes, construct is performed, show and
      present complete, and the observer is completed. */
  method RunImmediate(present: PhasePerformer, construct: PhasePerformer, deconstruct: PhasePerformer,
                      show: PhasePerformer, hiding: PhasePerformer, load: PhasePerformer,
                      transition: PhasePerformer, obs: EventLog, build: PhaseBuild, pr: Presentation)
    requires Cast(present, construct, deconstruct, show, hiding, load, transition, obs, build, pr)
    requires Unstarted(present) && Unstarted(construct) && Unstarted(deconstruct) && Unstarted(show)
    requires Unstarted(hiding) && Unstarted(load) && Unstarted(transition)
    modifies present, construct, deconstruct, show, hiding, load, transition, obs
    ensures obs.notifications == old(obs.notifications) + Rendered(ImmediateMarks, build, pr)
    ensures present.state == Completed && construct.state == Completed && deconstruct.state == Completed
    ensures show.state == Completed && hiding.state == Completed && load.state == Completed
    ensures transition.state == Completed
  {
    RenderedSegments(build, pr);
    RunImmediateOpening(present, load, hiding, deconstruct, obs, build, pr);
    RunImmediateMiddle(show, transition, hiding, obs, build, pr);
    RunClosing(construct, show, present, obs, build, pr);
  }

  /** DelayedLoadTransitionCoordination's sequence: present, hide and
      deconstruct start, the sequence waits for deconstruct's step, show
      starts, load and the transition are performed, hide completes, construct
      is performed, show and present complete, and the observer is completed;
      deconstruct is never completed. */
  method RunDelayed(present: PhasePerformer, construct: PhasePerformer, deconstruct: PhasePerformer,
                    show: PhasePerformer, hiding: PhasePerformer, load: PhasePerformer,
                    transition: PhasePerformer, obs: EventLog, build: PhaseBuild, pr: Presentation)
    requires Cast(present, construct, deconstruct, show, hiding, load, transition, obs, build, pr)
    requires Unstarted(present) && Unstarted(construct) && Unstarted(deconstruct) && Unstarted(show)
    requires Unstarted(hiding) && Unstarted(load) && Unstarted(transition)
    modifies present, construct, deconstruct, show, hiding, load, transition, obs
    ensures obs.notifications == old(obs.notifications) + Rendered(DelayedMarks, build, pr)
    ensures present.state == Completed && construct.state == Completed && deconstruct.state == Started
    ensures show.state == Completed && hiding.state == Completed && load.state == Completed
    ensures transition.state == Completed
  {
    RenderedSegments(build, pr);
    RunDelayedOpening(present, hiding, deconstruct, show, obs, build, pr);
    RunDelayedMiddle(load, transition, hiding, obs, build, pr);
    RunClosing(construct, show, present, obs, build, pr);
  }

  datatype CoordinationKind = ImmediateLoad | DelayedLoad

  /** The marks of the trace a coordination of the given kind reports. */
  function MarksOf(kind: CoordinationKind): seq<Mark>
  {
    match kind
    case ImmediateLoad => ImmediateMarks
    case DelayedLoad => DelayedMarks
  }

  /** The trace a coordination of the given kind reports for `pr`. */
  function TraceOf(kind: CoordinationKind, build: PhaseBuild, pr: Presentation): seq<Notification>
  {
    Rendered(MarksOf(kind), build, pr)
  }

  /** The state a coordination leaves the performer of a phase in. */
  function FinalState(kind: CoordinationKind, id: PhaseId): PhaseState
  {
    if kind == DelayedLoad && id == Deconstruct then Started else Completed
  }

  /** The phase order of the given kind of coordination. */
  method RunKind(kind: CoordinationKind, present: PhasePerformer, construct: PhasePerformer,
                 deconstruct: PhasePerformer, show: PhasePerformer, hiding: PhasePerformer,
                 load: PhasePerformer, transition: PhasePerformer, obs: EventLog, build: PhaseBuild, pr: Presentation)
    requires Cast(present, construct, deconstruct, show, hiding, load, transition, obs, build, pr)
    requires Unstarted(present) && Unstarted(construct) && Unstarted(deconstruct) && Unstarted(show)
    requires Unstarted(hiding) && Unstarted(load) && Unstarted(transition)
    modifies present, construct, deconstruct, show, hiding, load, transition, obs
    ensures obs.notifications == old(obs.notifications) + TraceOf(kind, build, pr)
    ensures present.state == FinalState(kind, Present) && construct.state == FinalState(kind, Construct)
    ensures deconstruct.state == FinalState(kind, Deconstruct) && show.state == FinalState(kind, Show)
    ensures hiding.state == FinalState(kind, Hide) && load.state == FinalState(kind, Load)
    ensures transition.state == FinalState(kind, TransitionPhase)
  {
    if kind == ImmediateLoad {
      RunImmediate(present, construct, deconstruct, show, hiding, load, transition, obs, build, pr);
    } else {
      RunDelayed(present, construct, deconstruct, show, hiding, load, transition, obs, build, pr);
    }
  }

  /** A coordination: its use-once flag, the observer it reports to, and its
      composite disposable, which holds every performer it created and the
      subscription of its internal sequence. */
  class Coordination {
    const kind: CoordinationKind
    /** How CreatePerformer builds phases: AsWritten is the source's. */
    const build: PhaseBuild
    const presentation: Presentation
    var used: bool
    var observer: EventLog?
    var performers: seq<PhasePerformer>
    var internalRegistered: bool
    var disposed: bool

    constructor (k: CoordinationKind, b: PhaseBuild, pr: Presentation)
      ensures kind == k && build == b && presentation == pr
      ensures !used && observer == null && performers == [] && !internalRegistered && !disposed
    {
      kind, build, presentation := k, b, pr;
      used, observer, performers, internalRegistered, disposed := false, null, [], false, false;
    }

    /** CreatePerformer: a fresh performer for the phase, reporting to the
        coordination's observer and added to the composite. */
    method CreatePerformer(id: PhaseId) returns (p: PhasePerformer)
      requires observer != null
      modifies this
      ensures fresh(p) && p.phase == BuiltPhase(build, id, presentation) && p.observer == observer
      ensures Unstarted(p) && !p.stepSubscribed
      ensures performers == old(performers) + [p]
      ensures observer == old(observer) && used == old(used)
      ensures internalRegistered == old(internalRegistered) && disposed == old(disposed)
    {
      p := new PhasePerformer(BuiltPhase(build, id, presentation), observer);
      performers := performers + [p];
    }

    /** The seven CreatePerformer calls both coordinations begin with, in their
        order: present, construct, deconstruct, show, hide, load, transition. */
    method CreatePerformers()
      returns (present: PhasePerformer, construct: PhasePerformer, deconstruct: PhasePerformer,
               show: PhasePerformer, hiding: PhasePerformer, load: PhasePerformer,
               transition: PhasePerformer)
      requires observer != null
      modifies this
      ensures fresh(present) && fresh(construct) && fresh(deconstruct) && fresh(show)
      ensures fresh(hiding) && fresh(load) && fresh(transition)
      ensures observer == old(observer) && used == old(used)
      ensures Cast(present, construct, deconstruct, show, hiding, load, transition, observer, build, presentation)
      ensures Unstarted(present) && Unstarted(construct) && Unstarted(deconstruct) && Unstarted(show)
      ensures Unstarted(hiding) && Unstarted(load) && Unstarted(transition)
      ensures performers == old(performers) + [present, construct, deconstruct, show, hiding, load, transition]
      ensures internalRegistered == old(internalRegistered) && disposed == old(disposed)
    {
      present := CreatePerformer(Present);
      construct := CreatePerformer(Construct);
      deconstruct := CreatePerformer(Deconstruct);
      show := CreatePerformer(Show);
      hiding := CreatePerformer(Hide);
      load := CreatePerformer(Load);
      transition := CreatePerformer(TransitionPhase);
    }

    /** Coordinate: throws when already used; otherwise stores the observer,
        runs the coordination's phase order, registers its subscription in the
        composite and returns the composite (this object). */
    method Coordinate(obs: EventLog) returns (o: Outcome)
      modifies this, obs
      ensures old(used) ==> o.Threw? && o.error.InvalidOperation? && unchanged(this, obs)
      ensures !old(used) ==>
        o == Done && used && observer == obs && internalRegistered &&
        |performers| == |old(performers)| + 7 && performers[..|old(performers)|] == old(performers)
      ensures !old(used) ==> obs.notifications == old(obs.notifications) + TraceOf(kind, build, presentation)
      ensures !old(used) ==>
        forall k :: |old(performers)| <= k < |performers| ==>
          var id := SevenPhases[k - |old(performers)|];
          fresh(performers[k]) && performers[k].observer == obs &&
          performers[k].phase == BuiltPhase(build, id, presentation) &&
          performers[k].state == FinalState(kind, id)
    {
      if used {
        return Threw(InvalidOperation("Coordinator can be used only once."));
      }
      used := true;
      observer := obs;
      CoordinateInternal();
      internalRegistered := true;
      o := Done;
    }

    /** CoordinateInternal of ImmediateLoadTransitionCoordination or of
        DelayedLoadTransitionCoordination: the seven performers, in creation
        order, then the kind's steps. */
    method CoordinateInternal()
      requires observer != null
      modifies this, observer
      ensures observer == old(observer) && used == old(used) && disposed == old(disposed)
      ensures internalRegistered == old(internalRegistered)
      ensures |performers| == |old(performers)| + 7 && performers[..|old(performers)|] == old(performers)
      ensures observer.notifications == old(observer.notifications) + TraceOf(kind, build, presentation)
      ensures forall k :: |old(performers)| <= k < |performers| ==>
        var id := SevenPhases[k - |old(performers)|];
        fresh(performers[k]) && performers[k].observer == observer &&
        performers[k].phase == BuiltPhase(build, id, presentation) &&
        performers[k].state == FinalState(kind, id)
    {
      var present, construct, deconstruct, show, hiding, load, transition := CreatePerformers();
      RunKind(kind, present, construct, deconstruct, show, hiding, load, transition, observer, build, presentation);
      forall k | |old(performers)| <= k < |performers|
        ensures var id := SevenPhases[k - |old(performers)|];
          fresh(performers[k]) && performers[k].observer == observer &&
          performers[k].phase == BuiltPhase(build, id, presentation) &&
          performers[k].state == FinalState(kind, id)
      {
        var j := k - |old(performers)|;
        assert performers[k] == [present, construct, deconstruct, show, hiding, load, transition][j];
      }
    }

    /** Dispose: disposes every performer held by the composite, and the
        internal subscription. */
    method Dispose()
      modifies this, set p | p in performers
      ensures disposed && !internalRegistered && performers == old(performers)
      ensures forall p :: p in performers ==> p.disposed && p.state == old(p.state)
    {
      var ps := performers;
      var i := 0;
      while i < |ps|
        invariant 0 <= i <= |ps| && performers == ps
        invariant forall j :: 0 <= j < i ==> ps[j].disposed
        invariant forall p :: p in ps ==> p.state == old(p.state)
      {
        ps[i].Dispose();
        i := i + 1;
      }
      internalRegistered := false;
      disposed := true;
    }
  }
}
