/** The two phased presenters (Interfaces/Phases/TransitionPresenterImpl.cs and
    Interfaces/Phases/PhasedPresenterImpl.cs). Present resolves the view with
    the options extended by the presenter's variants, creates the presentation,
    resolves the transition and its duration, and runs the presentation
    pipeline: the starting event, the default coordinator over the four phases
    and the completed event. The model takes the resolver's answer and the view
    loader's outcome as parameters and records what the pipeline reports. */
module PhasedPresenters {
  import opened Types
  import opened OptionsExtensions
  import opened PhaseRuns
  import opened PresenterFlags
  import opened ViewLoading

  /** What the view resolver hands a presenter for an input: the view model to
      bind and the target view type. */
  datatype ViewInfo = ViewInfo(viewModel: ViewModel?, viewType: TypeId)

  /** CreatePresentation: the resolved view model and view type, the caller's
      source view with its runtime type, and the caller's own options. */
  function CreatePresentation(info: ViewInfo, sourceView: View?, options: Options?): (p: Presentation)
    ensures p.viewModel == info.viewModel && p.targetViewType == info.viewType
    ensures p.sourceView == sourceView && p.options == options
    ensures p.sourceViewType.Some? <==> sourceView != null
    ensures sourceView != null ==> p.sourceViewType.value == sourceView.viewType.id
  {
    Presentation(info.viewModel, sourceView,
      if sourceView == null then None else Some(sourceView.viewType.id),
      info.viewType, options)
  }

  /** ResolveTransition: what the transition resolver answers for the key, or
      the default transition when there is no resolver or it answers null. */
  function ResolveTransition<K>(resolver: Option<K -> Option<Transition>>, key: K, fallback: Transition): (t: Transition)
    ensures resolver.Some? && resolver.value(key).Some? ==> t == resolver.value(key).value
    ensures resolver.None? || resolver.value(key).None? ==> t == fallback
  {
    match resolver
    case None => fallback
    case Some(resolve) =>
      match resolve(key)
      case None => fallback
      case Some(t) => t
  }

  /** ResolveDuration: the duration override of the options when there is one,
      otherwise the transition's own duration. */
  function ResolveDuration(t: Transition, options: Options?): (d: real)
    reads options
    ensures options != null && options.duration.Some? ==> d == options.duration.value
    ensures options == null || options.duration.None? ==> d == t.duration
  {
    if options != null && options.duration.Some? then options.duration.value else t.duration
  }

  /** The Deconstruction phase's operation: the source view deconstructs when
      it is IDeconstructable; otherwise the operation completes at once. */
  function DeconstructOperation(source: View?): Run
  {
    if source != null && source.deconstructable then Action([Deconstructed(source)]) else Action([])
  }

  /** The Load phase's operation: the view loader's pipeline, each loaded view
      recorded as the phase's target view. */
  function LoadOperation(load: LoadResult): Run
  {
    match load
    case Emits(v) => Action([Loaded(v)])
    case CompletesEmpty => Action([])
    case Errors(e) => Run([], Some(e))
    case Throws(e) => Run([], Some(e))
  }

  /** The target view the Load phase recorded, null when it loaded nothing. */
  function LoadedView(load: LoadResult): View?
  {
    if load.Emits? then load.view else null
  }

  /** The Transition phase's operation: the caller's transition operation,
      given the phase with its transition and duration, when there is one. */
  function TransitionOperation(hasOperation: bool, t: Transition, duration: real): Option<Run>
  {
    if hasOperation then Some(Action([TransitionOperated(t, duration)])) else None
  }

  /** The Construction phase's operation: the target view constructs when it
      is IConstructable; otherwise the operation completes at once. */
  function ConstructOperation(target: View?): Run
  {
    if target != null && target.constructable then Action([Constructed(target)]) else Action([])
  }

  /** The phase provider Present builds: each phase is PerformPhase around its
      operation. */
  function Provider(p: Presentation, load: LoadResult, t: Transition, duration: real, hasTransitionOperation: bool): PhaseProvider
  {
    PhaseProvider(
      PerformPhase(Deconstruction, p, Some(DeconstructOperation(p.sourceView))),
      PerformPhase(Load, p, Some(LoadOperation(load))),
      PerformPhase(TransitionPhase, p, TransitionOperation(hasTransitionOperation, t, duration)),
      PerformPhase(Construction, p, Some(ConstructOperation(LoadedView(load)))))
  }

  /** The first step of the pipeline: the pre-presentation action, when there
      is one, then the presentation-starting event. */
  function Opening(p: Presentation, hasPre: bool): seq<Signal>
  {
    (if hasPre then [PreAction(p)] else []) + [PresentationStarting(p)]
  }

  /** The last step: the post-presentation action, when there is one, then the
      presentation-completed event. */
  function Closing(p: Presentation, hasPost: bool): seq<Signal>
  {
    (if hasPost then [PostAction(p)] else []) + [PresentationCompleted(p)]
  }

  /** The presentation pipeline: the opening action, the default coordinator,
      the closing action, each subscribed once the previous one completed. */
  function PresentRun(p: Presentation, hasPre: bool, hasPost: bool, provider: PhaseProvider): (r: Run)
    ensures r.Completed() <==> DefaultCoordinate(provider).Completed()
    ensures r.Completed() ==>
      r.signals == Opening(p, hasPre) + DefaultCoordinate(provider).signals + Closing(p, hasPost)
    ensures !r.Completed() ==>
      r.signals == Opening(p, hasPre) + DefaultCoordinate(provider).signals &&
      r.failure == DefaultCoordinate(provider).failure
  {
    Then(Action(Opening(p, hasPre)), Then(DefaultCoordinate(provider), Action(Closing(p, hasPost))))
  }

  /** A phase's signals when its operation completes. */
  function PhaseSignals(id: PhaseId, p: Presentation, operation: seq<Signal>): seq<Signal>
  {
    [PhaseStarting(id, p)] + operation + [PhaseCompleted(id, p)]
  }

  /** The completed Deconstruction phase: it deconstructs only an
      IDeconstructable source view. */
  function DeconstructionSignals(p: Presentation): seq<Signal>
  {
    PhaseSignals(Deconstruction, p,
      if p.sourceView != null && p.sourceView.deconstructable then [Deconstructed(p.sourceView)] else [])
  }

  /** The completed Load phase: it reports the loaded view, if any. */
  function LoadSignals(p: Presentation, load: LoadResult): seq<Signal>
  {
    PhaseSignals(Load, p, if load.Emits? then [Loaded(load.view)] else [])
  }

  /** The completed Transition phase: the transition operation, when there is
      one, runs with the resolved transition and duration. */
  function TransitionSignals(p: Presentation, t: Transition, duration: real, hasTransitionOperation: bool): seq<Signal>
  {
    PhaseSignals(TransitionPhase, p, if hasTransitionOperation then [TransitionOperated(t, duration)] else [])
  }

  /** The completed Construction phase: it constructs only an IConstructable
      loaded view. */
  function ConstructionSignals(p: Presentation, load: LoadResult): seq<Signal>
  {
    PhaseSignals(Construction, p,
      if load.Emits? && load.view != null && load.view.constructable then [Constructed(load.view)] else [])
  }

  /** A phase whose operation completes is one completed step. */
  lemma CompletedPhase(id: PhaseId, p: Presentation, operation: seq<Signal>)
    ensures PerformPhase(id, p, Some(Action(operation))) == Action(PhaseSignals(id, p, operation))
    ensures PerformPhase(id, p, None) == Action(PhaseSignals(id, p, []))
  {
    assert [PhaseStarting(id, p)] + [] + [PhaseCompleted(id, p)] == [PhaseStarting(id, p)] + ([] + [PhaseCompleted(id, p)]);
  }

  /** When the load completes, every phase the provider hands out completes. */
  lemma CompletedProvider(p: Presentation, load: LoadResult, t: Transition, duration: real, hasTransitionOperation: bool)
    requires load.Emits? || load.CompletesEmpty?
    ensures Provider(p, load, t, duration, hasTransitionOperation) ==
      PhaseProvider(Action(DeconstructionSignals(p)), Action(LoadSignals(p, load)),
                    Action(TransitionSignals(p, t, duration, hasTransitionOperation)),
                    Action(ConstructionSignals(p, load)))
  {
    CompletedPhase(Deconstruction, p,
      if p.sourceView != null && p.sourceView.deconstructable then [Deconstructed(p.sourceView)] else []);
    CompletedPhase(Load, p, if load.Emits? then [Loaded(load.view)] else []);
    CompletedPhase(TransitionPhase, p, [TransitionOperated(t, duration)]);
    CompletedPhase(Construction, p,
      if load.Emits? && load.view != null && load.view.constructable then [Constructed(load.view)] else []);
  }

  /** The signals of a completed presentation, in order: the pre-presentation
      action and the starting event, the four phases, the post-presentation
      action and the completed event. */
  function CompletedSignals(p: Presentation, hasPre: bool, hasPost: bool, load: LoadResult,
                            t: Transition, duration: real, hasTransitionOperation: bool): seq<Signal>
  {
    Opening(p, hasPre) + DeconstructionSignals(p) + LoadSignals(p, load) +
    (TransitionSignals(p, t, duration, hasTransitionOperation) + ConstructionSignals(p, load) + Closing(p, hasPost))
  }

  /** The signals of a presentation whose load failed: the pre-presentation
      action and the starting event, the Deconstruction phase and the start of
      the Load phase. */
  function FailedSignals(p: Presentation, hasPre: bool): seq<Signal>
  {
    Opening(p, hasPre) + (DeconstructionSignals(p) + [PhaseStarting(Load, p)])
  }

  /** When the load completes, the whole presentation completes and reports
      the pre-presentation action, the starting event, the Deconstruction,
      Load, Transition and Construction phases, the post-presentation action
      and the completed event, in this order. */
  lemma PresentRunOrder(p: Presentation, hasPre: bool, hasPost: bool, load: LoadResult,
                        t: Transition, duration: real, hasTransitionOperation: bool)
    requires load.Emits? || load.CompletesEmpty?
    ensures var r := PresentRun(p, hasPre, hasPost, Provider(p, load, t, duration, hasTransitionOperation));
      r.Completed() && r.signals == CompletedSignals(p, hasPre, hasPost, load, t, duration, hasTransitionOperation)
  {
    CompletedProvider(p, load, t, duration, hasTransitionOperation);
    var o, d, l := Opening(p, hasPre), DeconstructionSignals(p), LoadSignals(p, load);
    var tr, c, cl := TransitionSignals(p, t, duration, hasTransitionOperation), ConstructionSignals(p, load), Closing(p, hasPost);
    assert o + ((d + (l + (tr + c))) + cl) == o + d + l + (tr + c + cl);
  }

  /** A load that fails ends the presentation with the load's error, right
      after the Load phase has started: the Load phase never completes, the
      later phases never run and the completed event is never reported. */
  lemma LoadFailureStopsPresentation(p: Presentation, hasPre: bool, hasPost: bool, load: LoadResult,
                                     t: Transition, duration: real, hasTransitionOperation: bool)
    requires load.Errors? || load.Throws?
    ensures var r := PresentRun(p, hasPre, hasPost, Provider(p, load, t, duration, hasTransitionOperation));
      r.failure == Some(load.error) && r.signals == FailedSignals(p, hasPre)
  {
    CompletedPhase(Deconstruction, p,
      if p.sourceView != null && p.sourceView.deconstructable then [Deconstructed(p.sourceView)] else []);
    assert PerformPhase(Load, p, Some(LoadOperation(load))) == Run([PhaseStarting(Load, p)], Some(load.error));
  }

  /** Deconstruct and Construct run only for views with those capabilities:
      in a completed presentation a view is deconstructed exactly when it is
      the IDeconstructable source view, and constructed exactly when it is the
      IConstructable loaded view. */
  lemma CapabilitiesDecideDeconstructAndConstruct(p: Presentation, hasPre: bool, hasPost: bool, load: LoadResult,
                                                  t: Transition, duration: real, hasTransitionOperation: bool, v: View)
    ensures var s := CompletedSignals(p, hasPre, hasPost, load, t, duration, hasTransitionOperation);
      (Deconstructed(v) in s <==> p.sourceView == v && v.deconstructable) &&
      (Constructed(v) in s <==> LoadedView(load) == v && v.constructable)
  {
    var tr := TransitionSignals(p, t, duration, hasTransitionOperation);
    assert Deconstructed(v) !in Opening(p, hasPre) && Constructed(v) !in Opening(p, hasPre);
    assert Deconstructed(v) !in Closing(p, hasPost) && Constructed(v) !in Closing(p, hasPost);
    assert Deconstructed(v) !in tr && Constructed(v) !in tr;
    assert Deconstructed(v) !in LoadSignals(p, load) && Constructed(v) !in LoadSignals(p, load);
    assert Deconstructed(v) !in ConstructionSignals(p, load);
    assert Constructed(v) !in DeconstructionSignals(p);
  }

  /** Once a presentation has completed, whatever came before it, no
      presentation and no load is in progress. */
  lemma {:induction false} CompletedPresentationSettlesFlags(before: seq<Signal>, initial: bool,
      p: Presentation, hasPre: bool, hasPost: bool, load: LoadResult,
      t: Transition, duration: real, hasTransitionOperation: bool)
    ensures var all := before + CompletedSignals(p, hasPre, hasPost, load, t, duration, hasTransitionOperation);
      !Fold(Presenting, initial, all) && Fold(Ready, initial, all) && !Fold(Loading, initial, all)
  {
    var head := Opening(p, hasPre) + DeconstructionSignals(p) + LoadSignals(p, load);
    var tail := TransitionSignals(p, t, duration, hasTransitionOperation) + ConstructionSignals(p, load) + Closing(p, hasPost);
    var all := before + (head + tail);
    assert all[|all| - 1] == PresentationCompleted(p);
    var loaded := before + head;
    assert loaded[|loaded| - 1] == PhaseCompleted(Load, p);
    assert !Fold(Loading, initial, loaded);
    assert Quiet(Loading, tail, 0) by {
      QuietWhenNoToggleIn(Loading, tail);
    }
    assert all == loaded + tail;
    QuietEventsKeepFold(Loading, initial, loaded, tail);
  }

  /** After a failed load the presenter stays busy, whatever came before: the
      presentation started and never completed, and the Load phase started and
      never completed. No error path of Present reports PresentationCompleted,
      so IsReady stays false until a later presentation completes; a navigation
      control asking this presenter's readiness refuses every push and pop
      meanwhile (NavigationControl.cs:47-56). */
  lemma {:induction false} FailedLoadLeavesPresenterBusy(before: seq<Signal>, initial: bool,
      p: Presentation, hasPre: bool)
    ensures var all := before + FailedSignals(p, hasPre);
      Fold(Presenting, initial, all) && !Fold(Ready, initial, all) && Fold(Loading, initial, all)
  {
    var tail := DeconstructionSignals(p) + [PhaseStarting(Load, p)];
    var all := before + (Opening(p, hasPre) + tail);
    assert all[|all| - 1] == PhaseStarting(Load, p);
    var started := before + Opening(p, hasPre);
    assert started[|started| - 1] == PresentationStarting(p);
    assert Fold(Presenting, initial, started) && !Fold(Ready, initial, started);
    assert Quiet(Presenting, tail, 0) && Quiet(Ready, tail, 0) by {
      QuietWhenNoToggleIn(Presenting, tail);
      QuietWhenNoToggleIn(Ready, tail);
    }
    assert all == started + tail;
    QuietEventsKeepFold(Presenting, initial, started, tail);
    QuietEventsKeepFold(Ready, initial, started, tail);
  }

  /** What the observable Present returns does: emit a view and complete, or
      fail. */
  datatype PresentResult = Returns(view: View?) | Fails(error: Exception)

  /** Present as written: `ThenReturn(presentation.TargetView)` reads the
      target view when the pipeline is built, before the Load phase has set
      it, so a completed presentation returns null. */
  function PresentResultAsWritten(r: Run): (res: PresentResult)
    ensures r.Completed() ==> res == Returns(null)
    ensures !r.Completed() ==> res == Fails(r.failure.value)
  {
    match r.failure
    case None => Returns(null)
    case Some(e) => Fails(e)
  }

  /** Present as intended: a completed presentation returns the view the Load
      phase recorded; a failed one fails with the pipeline's error. */
  function PresentResultOf(r: Run, load: LoadResult): (res: PresentResult)
    ensures !r.Completed() ==> res == Fails(r.failure.value)
  {
    match r.failure
    case None => Returns(LoadedView(load))
    case Some(e) => Fails(e)
  }

  /** As written, a presentation that loads and constructs a view still
      returns null instead of that view. */
  lemma AsWrittenPresentDropsLoadedView(p: Presentation, hasPre: bool, hasPost: bool, v: View,
                                        t: Transition, duration: real, hasTransitionOperation: bool)
    ensures var r := PresentRun(p, hasPre, hasPost, Provider(p, Emits(v), t, duration, hasTransitionOperation));
      Loaded(v) in r.signals && PresentResultAsWritten(r) == Returns(null) && PresentResultAsWritten(r).view != v
  {
    PresentRunOrder(p, hasPre, hasPost, Emits(v), t, duration, hasTransitionOperation);
  }

  /** A completed presentation reports a loaded view exactly when the load
      emitted that view. */
  lemma LoadedSignalIsTheLoad(p: Presentation, hasPre: bool, hasPost: bool, load: LoadResult,
                              t: Transition, duration: real, hasTransitionOperation: bool, w: View?)
    ensures Loaded(w) in CompletedSignals(p, hasPre, hasPost, load, t, duration, hasTransitionOperation)
      <==> load == Emits(w)
  {
    var tr := TransitionSignals(p, t, duration, hasTransitionOperation);
    assert Loaded(w) !in Opening(p, hasPre) && Loaded(w) !in Closing(p, hasPost);
    assert Loaded(w) !in DeconstructionSignals(p) && Loaded(w) !in tr && Loaded(w) !in ConstructionSignals(p, load);
  }

  /** As intended, a completed presentation returns exactly the view that the
      Load phase reported, and null when the load produced no view; a failed
      load makes Present fail with the load's error. */
  lemma PresentReturnsLoadedView(p: Presentation, hasPre: bool, hasPost: bool, load: LoadResult,
                                 t: Transition, duration: real, hasTransitionOperation: bool)
    ensures var r := PresentRun(p, hasPre, hasPost, Provider(p, load, t, duration, hasTransitionOperation));
      var res := PresentResultOf(r, load);
      (load.Emits? ==> res == Returns(load.view) && Loaded(res.view) in r.signals) &&
      (load.CompletesEmpty? ==> res == Returns(null) && forall w :: Loaded(w) !in r.signals) &&
      (load.Errors? || load.Throws? ==> res == Fails(load.error))
  {
    if load.Emits? || load.CompletesEmpty? {
      PresentRunOrder(p, hasPre, hasPost, load, t, duration, hasTransitionOperation);
      forall w: View? {
        LoadedSignalIsTheLoad(p, hasPre, hasPost, load, t, duration, hasTransitionOperation, w);
      }
    } else {
      LoadFailureStopsPresentation(p, hasPre, hasPost, load, t, duration, hasTransitionOperation);
    }
  }

  /** TransitionPresenterImpl: resolves its transition from the presentation,
      runs the caller's pre- and post-presentation actions, and exposes the
      IsReady and IsLoading properties, each created at its first access and
      from then on following the events reported after that access. */
  class TransitionPresenter {
    const transitionResolver: Option<Presentation -> Option<Transition>>
    /** Everything reported through the four subjects, and done by the
        callbacks, in order. */
    var signals: seq<Signal>
    /** Where in `signals` IsReady was first read, once it has been. */
    var readySince: Option<nat>
    /** Where in `signals` IsLoading was first read, once it has been. */
    var loadingSince: Option<nat>

    predicate Valid()
      reads this
    {
      (readySince.Some? ==> readySince.value <= |signals|) &&
      (loadingSince.Some? ==> loadingSince.value <= |signals|)
    }

    constructor (resolver: Option<Presentation -> Option<Transition>>)
      ensures transitionResolver == resolver && signals == []
      ensures readySince == None && loadingSince == None && Valid()
    {
      transitionResolver := resolver;
      signals, readySince, loadingSince := [], None, None;
    }

    /** IsReady: true until a presentation starts, false until it completes;
        it sees only the events after its first access. */
    method IsReady() returns (ready: bool)
      requires Valid()
      modifies this
      ensures Valid() && signals == old(signals) && loadingSince == old(loadingSince)
      ensures readySince == (if old(readySince).None? then Some(|signals|) else old(readySince))
      ensures ready == !IsPresenting(signals[readySince.value..])
    {
      if readySince.None? {
        readySince := Some(|signals|);
      }
      ready := Fold(Ready, true, signals[readySince.value..]);
      ReadyIsNotPresenting(signals[readySince.value..]);
    }

    /** IsLoading: true on a Load phase's start, false on its completion; as
        written it starts true, and it sees only the events after its first
        access. */
    method IsLoading() returns (loading: bool)
      requires Valid()
      modifies this
      ensures Valid() && signals == old(signals) && readySince == old(readySince)
      ensures loadingSince == (if old(loadingSince).None? then Some(|signals|) else old(loadingSince))
      ensures loading == Fold(Loading, true, OfPhase(signals[loadingSince.value..], Load))
    {
      if loadingSince.None? {
        loadingSince := Some(|signals|);
      }
      loading := Fold(Loading, true, signals[loadingSince.value..]);
      LoadingSeesOnlyLoadPhase(true, signals[loadingSince.value..]);
    }

    /** Present: extends the options with the presenter's variants, resolves
        the view with them, creates the presentation, resolves the transition
        and the duration, and reports the presentation pipeline. */
    method Present(input: Input, sourceView: View?, presenterVariants: seq<string>,
                   defaultTransition: Transition, options: Options?,
                   resolve: (Input, seq<string>) -> ViewInfo,
                   hasPre: bool, hasTransitionOperation: bool, hasPost: bool, load: LoadResult)
      returns (result: PresentResult)
      requires Valid()
      modifies this, options
      ensures Valid() && readySince == old(readySince) && loadingSince == old(loadingSince)
      ensures options != null ==> options.variants == old(options.variants) + presenterVariants
      ensures options != null ==> options.duration == old(options.duration)
      ensures
        var p := CreatePresentation(resolve(input, old(GetVariants(options)) + presenterVariants), sourceView, options);
        var t := ResolveTransition(transitionResolver, p, defaultTransition);
        var r := PresentRun(p, hasPre, hasPost, Provider(p, load, t, ResolveDuration(t, options), hasTransitionOperation));
        signals == old(signals) + r.signals && result == PresentResultOf(r, load)
    {
      var extended := WithExtraVariants(options, presenterVariants);
      assert GetVariants(extended) == old(GetVariants(options)) + presenterVariants;
      var info := resolve(input, GetVariants(extended));
      var p := CreatePresentation(info, sourceView, options);
      var t := ResolveTransition(transitionResolver, p, defaultTransition);
      var duration := ResolveDuration(t, options);
      var r := PresentRun(p, hasPre, hasPost, Provider(p, load, t, duration, hasTransitionOperation));
      signals := signals + r.signals;
      result := PresentResultOf(r, load);
    }
  }

  /** PhasedPresenterImpl: resolves its transition from the pair of the source
      view's runtime type and the target view type, and has no pre- or
      post-presentation actions. Its IsPresenting and IsLoading are the folds
      over `signals` of PresenterFlags. */
  class PhasedPresenter {
    const transitionResolver: Option<((Option<TypeId>, TypeId)) -> Option<Transition>>
    var signals: seq<Signal>

    constructor (resolver: Option<((Option<TypeId>, TypeId)) -> Option<Transition>>)
      ensures transitionResolver == resolver && signals == []
    {
      transitionResolver := resolver;
      signals := [];
    }

    method Present(input: Input, sourceView: View?, presenterVariants: seq<string>,
                   defaultTransition: Transition, options: Options?,
                   resolve: (Input, seq<string>) -> ViewInfo,
                   hasTransitionOperation: bool, load: LoadResult)
      returns (result: PresentResult)
      modifies this, options
      ensures options != null ==> options.variants == old(options.variants) + presenterVariants
      ensures options != null ==> options.duration == old(options.duration)
      ensures
        var info := resolve(input, old(GetVariants(options)) + presenterVariants);
        var p := CreatePresentation(info, sourceView, options);
        var t := ResolveTransition(transitionResolver, (p.sourceViewType, info.viewType), defaultTransition);
        var r := PresentRun(p, false, false, Provider(p, load, t, ResolveDuration(t, options), hasTransitionOperation));
        signals == old(signals) + r.signals && result == PresentResultOf(r, load)
    {
      var extended := WithExtraVariants(options, presenterVariants);
      assert GetVariants(extended) == old(GetVariants(options)) + presenterVariants;
      var info := resolve(input, GetVariants(extended));
      var p := CreatePresentation(info, sourceView, options);
      var sourceViewType := if sourceView == null then None else Some(sourceView.viewType.id);
      var t := ResolveTransition(transitionResolver, (sourceViewType, info.viewType), defaultTransition);
      var duration := ResolveDuration(t, options);
      var r := PresentRun(p, false, false, Provider(p, load, t, duration, hasTransitionOperation));
      signals := signals + r.signals;
      result := PresentResultOf(r, load);
    }
  }
}
