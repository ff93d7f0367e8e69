/** The observable pipelines of the phased presenters, with the UniRx
    scheduling stripped away: a pipeline that has been subscribed to is a `Run`,
    the signals it produced in order and whether it ended in an error. Sequence
    composition (`seq.Add` in Silphid.Sequencit) is `Then`; a phase is
    PerformPhase's three-step sequence around its join; the default coordinator
    sequences the provider's four phases. */
module PhaseRuns {
  import opened Types

  /** Everything a presenter reports through its subjects, or does through the
      callbacks and capabilities it invokes, in the order it happens. */
  datatype Signal =
    | PreAction(presentation: Presentation)
    | PresentationStarting(presentation: Presentation)
    | PhaseStarting(id: PhaseId, presentation: Presentation)
    | Deconstructed(view: View)
    | Loaded(loadedView: View?)
    | TransitionOperated(transition: Transition, duration: real)
    | Constructed(view: View)
    | PhaseCompleted(id: PhaseId, presentation: Presentation)
    | PostAction(presentation: Presentation)
    | PresentationCompleted(presentation: Presentation)

  /** A subscribed pipeline: the signals it produced and its error, if any. */
  datatype Run = Run(signals: seq<Signal>, failure: Option<Exception>)
  {
    predicate Completed()
    {
      failure.None?
    }
  }

  /** An action step (`seq.AddAction`): it produces its signals and completes. */
  function Action(signals: seq<Signal>): (r: Run)
    ensures r.Completed() && r.signals == signals
  {
    Run(signals, None)
  }

  /** Sequencing: `b` is subscribed only once `a` has completed; an error of
      `a` ends the sequence. */
  function Then(a: Run, b: Run): (r: Run)
    ensures !a.Completed() ==> r == a
    ensures a.Completed() ==> r.signals == a.signals + b.signals && r.failure == b.failure
  {
    if a.Completed() then Run(a.signals + b.signals, b.failure) else a
  }

  /** The result completes exactly when both parts complete. */
  lemma ThenCompletesIffBoth(a: Run, b: Run)
    ensures Then(a, b).Completed() <==> a.Completed() && b.Completed()
  {
  }

  /** Grouping does not matter when sequencing three pipelines. */
  lemma ThenAssociative(a: Run, b: Run, c: Run)
    ensures Then(Then(a, b), c) == Then(a, Then(b, c))
  {
  }

  /** The step a phase's join waits on: the registered operation, or nothing
      when PerformPhase was given no operation. */
  function Join(operation: Option<Run>): (r: Run)
    ensures operation.None? ==> r == Action([])
    ensures operation.Some? ==> r == operation.value
  {
    match operation
    case None => Action([])
    case Some(op) => op
  }

  /** PerformPhase: the phase-starting event, then the join over the
      registered operation, then the phase-completed event. The operation is
      registered in the join before the starting event is emitted, so it runs
      after that event, and the completed event follows only once it has
      completed. */
  function PerformPhase(id: PhaseId, presentation: Presentation, operation: Option<Run>): (r: Run)
    ensures |r.signals| >= 1 && r.signals[0] == PhaseStarting(id, presentation)
    ensures r.failure == Join(operation).failure
    ensures r.Completed() ==>
      r.signals == [PhaseStarting(id, presentation)] + Join(operation).signals + [PhaseCompleted(id, presentation)]
    ensures !r.Completed() ==>
      r.signals == [PhaseStarting(id, presentation)] + Join(operation).signals
  {
    Then(Action([PhaseStarting(id, presentation)]),
         Then(Join(operation), Action([PhaseCompleted(id, presentation)])))
  }

  /** The four phases an IPhaseProvider hands out, as the pipelines they run. */
  datatype PhaseProvider = PhaseProvider(deconstruction: Run, load: Run, transition: Run, construction: Run)

  /** DefaultPhaseCoordinator.Coordinate: the provider's deconstruction, load,
      transition and construction phases, in that order, each subscribed once
      the previous one has completed. */
  function DefaultCoordinate(provider: PhaseProvider): (r: Run)
    ensures r.Completed() <==>
      provider.deconstruction.Completed() && provider.load.Completed() &&
      provider.transition.Completed() && provider.construction.Completed()
    ensures r.signals <= provider.deconstruction.signals + provider.load.signals +
      provider.transition.signals + provider.construction.signals
  {
    Then(provider.deconstruction, Then(provider.load, Then(provider.transition, provider.construction)))
  }

  /** When every phase completes, the coordination completes and produces the
      four phases' signals in the fixed order, each exactly once. */
  lemma DefaultCoordinateRunsFourPhasesInOrder(p: PhaseProvider)
    requires p.deconstruction.Completed() && p.load.Completed() && p.transition.Completed()
    ensures DefaultCoordinate(p).Completed() <==> p.construction.Completed()
    ensures p.construction.Completed() ==>
      DefaultCoordinate(p).signals ==
        p.deconstruction.signals + p.load.signals + p.transition.signals + p.construction.signals
  {
  }

  /** A phase that errors ends the coordination: the phases after it are never
      subscribed, and the coordination reports that error. */
  lemma DefaultCoordinateStopsAtFirstError(p: PhaseProvider)
    ensures !p.deconstruction.Completed() ==> DefaultCoordinate(p) == p.deconstruction
    ensures p.deconstruction.Completed() && !p.load.Completed() ==>
      DefaultCoordinate(p) == Run(p.deconstruction.signals + p.load.signals, p.load.failure)
    ensures p.deconstruction.Completed() && p.load.Completed() && !p.transition.Completed() ==>
      DefaultCoordinate(p) ==
        Run(p.deconstruction.signals + p.load.signals + p.transition.signals, p.transition.failure)
    ensures DefaultCoordinate(p).Completed() <==>
      p.deconstruction.Completed() && p.load.Completed() && p.transition.Completed() && p.construction.Completed()
  {
  }
}
