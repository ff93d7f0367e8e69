# Showzup presentation engine — a Dafny model

Showzup is a Unity UI framework. A caller asks a *presenter* to present an
input: a view model, a view type or a ready view. The engine then works in
five stages:

- It resolves which view prefab to use. The view resolver scores every
  registered mapping by variant and type specificity.
- It loads and instantiates that prefab. The view loader honours
  cancellation and binds the view model to the view.
- It runs a fixed sequence of phases: deconstruct the outgoing view, load,
  transition, construct the incoming view.
- It reports the phase events to observers.
- It updates the controls that host views:
  - a presenter control: at most one load in flight and one pending request;
  - a navigation control: a history stack with push modes and pops;
  - a list control and a selection control;
  - a double-buffered transition control.

This project models each of those parts in Dafny and proves the properties the
code promises. Entities that the engine updates in place are classes with
their fields: options, views, view models, containers, game objects,
cancellation tokens, performers, controls and presenters. Pure computations
are functions, and properties relating several calls are lemmas. The
asynchronous completions of the observable pipelines are modelled in one of
two ways:

- as explicit event methods, where a control reacts to them;
- as a `Run` value (the signals produced, and the error if any), where a
  presenter builds a pipeline.

Modules:

| file | module | models |
|---|---|---|
| types.dfy | Types | options, views, view models, containers, inputs, phase ids, presentations |
| options_extensions.dfy | OptionsExtensions | Extensions/OptionsExtensions.cs |
| view_resolver.dfy | ViewResolution | ViewResolver.cs |
| view_loader.dfy | ViewLoading | ViewLoader.cs |
| presenter_control.dfy | PresenterControls | Controls/PresenterControlBase.cs |
| phase_performer.dfy | PhasePerformers | Phases/PhasePerformer.cs, Phases/Phase.cs |
| coordination.dfy | Coordinations | Phases/CoordinationBase.cs and its two subclasses |
| phase_runs.dfy | PhaseRuns | the phase pipeline, Interfaces/Phases/DefaultPhaseCoordinator.cs |
| presenter_flags.dfy | PresenterFlags | Interfaces/Phases/IPhasedPresenterExtensions.cs, the IsReady / IsLoading folds |
| phased_presenters.dfy | PhasedPresenters | Interfaces/Phases/TransitionPresenterImpl.cs, PhasedPresenterImpl.cs |
| transition_control.dfy | TransitionControls | Controls/TransitionControl.cs |
| navigation.dfy | Navigation | Controls/NavigationControl.cs |
| list_control.dfy | ListControls | Controls/ListControl.cs |
| selection_control.dfy | Selection | Controls/SelectionControl.cs |

External collaborators become parameters of the model:

- the asset loader's result for a prefab;
- the engine's instantiated copy, and whether a cancellation arrived while it
  was being created;
- the global variant provider's variants;
- the transition resolver;
- the view loader's outcome as seen by a presenter;
- the view resolver's answer (`resolve`) as seen by a presenter;
- whether a presenter is ready, as seen by the navigation control.
- which values ListControl.Present finds enumerable, and their items
  (`enumerate`).

A coordination is built with one of two phase builds. Under `AsWritten`,
CreatePerformer gives every performer a phase carrying PhaseId.Present, as
CoordinationBase.cs:26 does. Under `AsIntended`, it gives the requested phase
(see Findings). The coordination's methods are proved for both builds. The
order in which the observer sees each phase's events is stated for the
intended build, and what an as-written observer sees is stated separately.

## Model

| member | source | states |
|---|---|---|
| OptionsExtensions.NullOptionsReadAsDefaults | Assets/Showzup/Extensions/OptionsExtensions.cs:9-12 | Absent options read as the default direction, the default push mode and an empty variant list. |
| OptionsExtensions.WithExtraVariants | Assets/Showzup/Extensions/OptionsExtensions.cs:14-25 | No extra variants: the same options come back unchanged. Otherwise the same object is returned, or a fresh default Options when there was none. Its variants are the old ones followed by the extra ones, and every other field is kept. |
| ViewResolution.CountContained | Assets/Showzup/ViewResolver.cs:105 | Counts, by position, the requested variants the candidate declares (duplicates count each time). Never more than the number requested. |
| ViewResolution.VariantScore | Assets/Showzup/ViewResolver.cs:104-106 | 100 per requested variant the candidate declares, plus 50 when the candidate declares "Default". Bounded by 100·(number requested) + 50. |
| ViewResolution.CountContainedAppend | Assets/Showzup/ViewResolver.cs:105 | The count over a concatenation of requests is the sum of the counts over the parts. |
| ViewResolution.VariantScoreMonotonic | Assets/Showzup/ViewResolver.cs:104-106 | Requesting more variants never lowers a score. It raises it by at most 100 per extra variant. |
| ViewResolution.IndexOf | Assets/Showzup/Controls/ListControl.cs:40 | List.IndexOf of a present element: a valid index holding it, with no earlier occurrence. |
| ViewResolution.IndexOfIsFirst | Assets/Showzup/Controls/NavigationControl.cs:116 | An index holding the element with no earlier occurrence is exactly what IndexOf returns. |
| ViewResolution.GetTypeScore | Assets/Showzup/ViewResolver.cs:108-122 | The loop up the base-type chain returns TypeScore: 100 minus the number of steps to the requested type, or 0 when the type is absent. |
| ViewResolution.ExactTypeScoresHighest | Assets/Showzup/ViewResolver.cs:110-115 | The requested type itself scores 100. |
| ViewResolution.AncestorTypeScore | Assets/Showzup/ViewResolver.cs:110-119 | A requested type first met d base-type steps up scores 100 − d. |
| ViewResolution.UnrelatedTypeScoresZero | Assets/Showzup/ViewResolver.cs:112-121 | A type that is not an ancestor of the candidate scores 0. |
| ViewResolution.FirstBest | Assets/Showzup/ViewResolver.cs:89-94 | Ordering by variant score, then type score, both descending and stable, then taking the first. None exactly when no mapping has a non-zero type score. Otherwise an eligible index that no eligible index beats, and that every earlier eligible index falls strictly below. |
| ViewResolution.FirstBestIsUnique | Assets/Showzup/ViewResolver.cs:90-94 | The stable order has a single winner. |
| ViewResolution.Scores | Assets/Showzup/ViewResolver.cs:85-88 | One (variant score, type score) pair per mapping, in registry order. |
| ViewResolution.ResolveWithVariants | Assets/Showzup/ViewResolver.cs:78-102 | None exactly when every mapping has type score 0. Otherwise it returns a registered mapping at the first-best index, and that mapping's type score is non-zero. |
| ViewResolution.EffectiveVariants | Assets/Showzup/ViewResolver.cs:80-81 | The requested variants: the options' variants are a prefix, and what follows them is exactly the global provider's variants, or nothing when there is no provider. |
| ViewResolution.ResolvedIsMaximal | Assets/Showzup/ViewResolver.cs:85-94 | No eligible mapping has a higher variant score than the winner. At equal variant score none has a higher type score. Every earlier eligible mapping ranks strictly below the winner. |
| ViewResolution.ViewResolver.constructor | Assets/Showzup/ViewResolver.cs:37-40 | An empty registry holding the optional global variant provider. |
| ViewResolution.ViewResolver.Initialize | Assets/Showzup/ViewResolver.cs:42-50 | The discovered mappings are appended to the registry. |
| ViewResolution.ViewResolver.ResolveFromViewModelType | Assets/Showzup/ViewResolver.cs:72-73 | Resolution against each mapping's view-model type, with the effective variants: None iff every mapping's type score is 0, otherwise the first-best mapping with a non-zero type score. The type itself or an ancestor fewer than 100 steps up scores 100 − d; one exactly 100 steps up scores 0 and is skipped, as in the code, and one further up scores below 0 and stays a candidate. |
| ViewResolution.ViewResolver.ResolveFromViewType | Assets/Showzup/ViewResolver.cs:75-76 | The same against each mapping's view type: None iff every mapping's view-type score is 0, otherwise the first-best mapping with a non-zero type score (a type exactly 100 steps up scores 0 and is skipped). |
| ViewLoading.FindComponent | Assets/Showzup/ViewLoader.cs:152 | GetComponent(Type): None iff no component's type is or derives from the type. Otherwise the first component that does. |
| ViewLoading.ViewLoader.constructor | Assets/Showzup/ViewLoader.cs:20-24 | The loader keeps the resolver it is given. |
| ViewLoading.ViewLoader.Dispatch | Assets/Showzup/ViewLoader.cs:26-51 | Which branch each input takes: <br>• null gives a null view; <br>• a view passes through; <br>• a type that is not a view is a NotSupportedException, and exactly then; <br>• an unmapped type or view model is an InvalidOperationException; <br>• a resolved mapping is loaded with no view model for a view type, or with the input as view model. |
| ViewLoading.ViewLoader.LoadByViewType | Assets/Showzup/ViewLoader.cs:53-63 | An InvalidOperationException exactly when ResolveFromViewType finds no mapping for the view type. Otherwise the mapping it found is loaded, with no view model. |
| ViewLoading.ViewLoader.LoadByViewModel | Assets/Showzup/ViewLoader.cs:65-75 | An InvalidOperationException exactly when ResolveFromViewModelType finds no mapping for the view model's type. Otherwise the mapping it found is loaded, with the input as view model. |
| ViewLoading.ViewLoader.Load | Assets/Showzup/ViewLoader.cs:26-51 | Null input emits null, and a view input emits that view. A rejected type is an observable error. An unmapped input throws at the call. None of these touches the token, the instance or the prefab. A resolved mapping ends as LoadInternal does: an asset failure is an observable error; a cancellation requested before or during instantiation completes without a view, destroying an instance cancelled during creation; an instance without a component of the mapped type is an InvalidOperationException; otherwise the first such component, bound to the route's view model, is emitted. |
| ViewLoading.ViewLoader.LoadRoute | Assets/Showzup/ViewLoader.cs:26-51 | Each route's outcome: a null or ready view is emitted, a rejected type is an observable error, an unmapped input throws, and none of these touches the token, the instance or the prefab; a mapping route ends as each of LoadInternal's cases says. |
| ViewLoading.ViewLoader.LoadInternal | Assets/Showzup/ViewLoader.cs:77-109 | Asset failure is an error. A cancellation already requested, or arriving during instantiation (the instance is then destroyed), completes without a view. No component of the mapped type is an InvalidOperationException. Otherwise the found component gets the view model and is emitted, and every component of the prefab was disabled first. |
| ViewLoading.ViewLoader.Instantiate | Assets/Showzup/ViewLoader.cs:120-143 | Cancellation already requested: nothing is created and nothing changes. Otherwise the original's views are disabled. A cancellation during creation destroys the instance and yields null, and otherwise the instance is returned. |
| ViewLoading.ViewLoader.DisableAllViews | Assets/Showzup/ViewLoader.cs:145-148 | Every view component becomes inactive; nothing else about them changes. |
| ViewLoading.ViewLoader.GetViewFromPrefab | Assets/Showzup/ViewLoader.cs:150-159 | The component FindComponent finds, or an InvalidOperationException exactly when there is none. |
| ViewLoading.ViewLoader.InjectView | Assets/Showzup/ViewLoader.cs:85-90 | Binds the view model and changes nothing else on the view. |
| PresenterControls.Control.Begin | Assets/Showzup/Controls/PresenterControlBase.cs:87-89 | PresentNow: the state is Loading with the request in flight, and the pending request and channels are kept. |
| PresenterControls.Control.Settle | Assets/Showzup/Controls/PresenterControlBase.cs:90-99 | The in-flight request's channel gets its final status. All other channels are kept and nothing is left in flight. |
| PresenterControls.Control.CompleteRequest | Assets/Showzup/Controls/PresenterControlBase.cs:118-129 | Back to Ready. A pending request is started (Loading) and leaves the pending slot. |
| PresenterControls.Control.CancelLoading | Assets/Showzup/Controls/PresenterControlBase.cs:112-116 | The cancelled request's caller sees completion without a view. |
| PresenterControls.Control.PresentLater | Assets/Showzup/Controls/PresenterControlBase.cs:102-110 | The previous pending request's channel completes empty and no other channel changes. The new request becomes the single pending one. |
| PresenterControls.Control.Present | Assets/Showzup/Controls/PresenterControlBase.cs:68-81 | A new open channel per call. Ready: load now. Loading: the load in flight ends empty and the new one is loaded. Presenting: the request is queued and replaces any older pending one, which ends empty. The invariant is kept. |
| PresenterControls.Control.PresentWhenReady | Assets/Showzup/Controls/PresenterControlBase.cs:70-71 | Ready: the request is loaded at once. |
| PresenterControls.Control.PresentWhenLoading | Assets/Showzup/Controls/PresenterControlBase.cs:73-77 | Loading: cancel, then load the new request. |
| PresenterControls.Control.PresentWhenPresenting | Assets/Showzup/Controls/PresenterControlBase.cs:79-80 | Presenting: the request becomes pending. |
| PresenterControls.Control.LoadSucceeded | Assets/Showzup/Controls/PresenterControlBase.cs:93-96 | A loaded view moves the control to Presenting with that view. |
| PresenterControls.Control.LoadFailed | Assets/Showzup/Controls/PresenterControlBase.cs:92 | A load error restores Ready and fails the caller's channel. |
| PresenterControls.Control.PresentationDone | Assets/Showzup/Controls/PresenterControlBase.cs:96-99 | The loaded view is delivered to the caller, and then CompleteRequest runs. |
| PresenterControls.Control.PresentationFailed | Assets/Showzup/Controls/PresenterControlBase.cs:90-99 | A presentation error fails the caller's channel but leaves the state Presenting, because only load errors reset it. |
| PresenterControls.Control.Step | Assets/Showzup/Controls/PresenterControlBase.cs:68-129 | Any enabled event keeps the invariant and only ever extends the channel record. |
| PresenterControls.Control.Run | Assets/Showzup/Controls/PresenterControlBase.cs:68-129 | The invariant holds after any sequence of events. |
| PresenterControls.InitialIsValid | Assets/Showzup/Controls/PresenterControlBase.cs:53-64 | A new control is Ready, has handed out no channels and meets the invariant. |
| PresenterControls.EndedChannelsStayEnded | Assets/Showzup/Controls/PresenterControlBase.cs:102-129 | Once a caller's observable has ended, no later event changes how it ended. |
| PresenterControls.LastPendingRequestWins | Assets/Showzup/Controls/PresenterControlBase.cs:102-110 | Two requests during a presentation: the first ends empty. When the presentation finishes, its view is delivered and only the second request is loaded. |
| PresenterControls.PresenterControl.constructor | Assets/Showzup/Controls/PresenterControlBase.cs:61-64 | A new control is the initial state. |
| PresenterControls.PresenterControl.Present | Assets/Showzup/Controls/PresenterControlBase.cs:68-81 | The object follows Control.Present. A Loading control's token is cancelled. A new load uses a fresh token. The caller's options object is extended in place with the control's variants and becomes the load options; its direction, push mode, transition and duration are kept, and null options with variants give a fresh default Options. A queued request touches neither token nor options. |
| PresenterControls.PresenterControl.PresentNow | Assets/Showzup/Controls/PresenterControlBase.cs:87-100 | Follows Control.Begin with a fresh, uncancelled token. The request's options become the load options as WithExtraVariants leaves them: the same object with the control's variants appended and every other field kept, or a fresh default Options when there was none. |
| PresenterControls.PresenterControl.PresentLater | Assets/Showzup/Controls/PresenterControlBase.cs:102-110 | Follows Control.PresentLater; the token and load options are untouched. |
| PresenterControls.PresenterControl.CancelLoading | Assets/Showzup/Controls/PresenterControlBase.cs:112-116 | Follows Control.CancelLoading and requests cancellation on the token of the load in flight. |
| PresenterControls.PresenterControl.CompleteRequest | Assets/Showzup/Controls/PresenterControlBase.cs:118-129 | Follows Control.CompleteRequest. A started pending request gets a fresh, uncancelled token, and its own options, extended in place with the control's variants, become the load options. With nothing pending, token and load options are kept. |
| PresenterControls.PresenterControl.LoadSucceeded | Assets/Showzup/Controls/PresenterControlBase.cs:93-96 | Follows Control.LoadSucceeded. |
| PresenterControls.PresenterControl.LoadFailed | Assets/Showzup/Controls/PresenterControlBase.cs:92 | Follows Control.LoadFailed. |
| PresenterControls.PresenterControl.PresentationDone | Assets/Showzup/Controls/PresenterControlBase.cs:96-99 | Follows Control.PresentationDone. When a request was pending, it starts with a fresh, uncancelled token and its options, extended in place with the control's variants, become the load options; otherwise token and load options are kept. |
| PresenterControls.PresenterControl.PresentationFailed | Assets/Showzup/Controls/PresenterControlBase.cs:90-99 | Follows Control.PresentationFailed. |
| PhasePerformers.Next | Assets/Showzup/Phases/PhasePerformer.cs:33-59 | Start is legal exactly from Ready, and Cancel and Complete exactly from Started. Completed and Cancelled allow nothing. |
| PhasePerformers.History | Assets/Showzup/Phases/PhasePerformer.cs:33-59 | What a performer in each state has reported: nothing when Ready. Otherwise PhaseStarting first, then one PhaseCompleted or PhaseCancelled. |
| PhasePerformers.RunExtendsHistory | Assets/Showzup/Phases/PhasePerformer.cs:33-59 | Any sequence of calls reports exactly the events that extend the history of the old state to that of the new state. |
| PhasePerformers.AtMostOneStartThenOneEnd | Assets/Showzup/Phases/PhasePerformer.cs:33-59 | Whatever is called on a fresh performer, it reports at most one PhaseStarting, then at most one completion or cancellation. |
| PhasePerformers.TerminalStatesAreFinal | Assets/Showzup/Phases/PhasePerformer.cs:43-59 | From Completed or Cancelled, no call changes the state or reports anything. |
| PhasePerformers.PhasePerformer.constructor | Assets/Showzup/Phases/PhasePerformer.cs:16-20 | A new performer is Ready for its phase and observer. |
| PhasePerformers.PhasePerformer.Start | Assets/Showzup/Phases/PhasePerformer.cs:33-41 | Outside Ready it throws InvalidOperationException and changes nothing. Otherwise it becomes Started, reports PhaseStarting and subscribes the step. |
| PhasePerformers.PhasePerformer.Cancel | Assets/Showzup/Phases/PhasePerformer.cs:43-50 | Outside Started it throws. Otherwise it becomes Cancelled and reports PhaseCancelled. |
| PhasePerformers.PhasePerformer.Complete | Assets/Showzup/Phases/PhasePerformer.cs:52-59 | Outside Started it throws. Otherwise it becomes Completed and reports PhaseCompleted. |
| PhasePerformers.PhasePerformer.Perform | Assets/Showzup/Phases/PhasePerformer.cs:27-31 | Start, with Complete attached to the step's completion. |
| PhasePerformers.PhasePerformer.StepCompletes | Assets/Showzup/Phases/PhasePerformer.cs:30-40 | When the step completes and the performer is not disposed, a Perform-ed performer runs Complete. |
| PhasePerformers.PhasePerformer.Dispose | Assets/Showzup/Phases/PhasePerformer.cs:22-25 | Releases the step subscription; the state is kept. |
| Coordinations.PerformerPhaseAsWritten | Assets/Showzup/Phases/CoordinationBase.cs:24-29 | As written, the phase always carries PhaseId.Present, whatever id is asked for. |
| Coordinations.AsWrittenLoadPerformerIsNotLoad | Assets/Showzup/Phases/CoordinationBase.cs:26 | As written, the Load performer's phase is not Load, and its phase equals the Construct performer's. |
| Coordinations.PerformerPhase | Assets/Showzup/Phases/CoordinationBase.cs:24-29 | As intended, the phase carries the requested id. It differs from the as-written phase for every id but Present. |
| Coordinations.BuiltPhase | Assets/Showzup/Phases/CoordinationBase.cs:26 | The phase a coordination's performer gets: a Present phase under the as-written build, the requested phase under the intended build, of the coordination's presentation under both. |
| Coordinations.AsWrittenTraceForgetsPhases | Assets/Showzup/Phases/CoordinationBase.cs:26 | As written, the observer is told exactly what the intended coordination would tell it if every step were the Present phase's: starts and completions keep their places and lose their phases. |
| Coordinations.AsWrittenObserverSeesOnlyPresent | Assets/Showzup/Phases/CoordinationBase.cs:26 | As written, every phase event either coordination reports is about the Present phase, so the Load performer's start equals the Construct performer's. |
| Coordinations.ImmediatePresentBrackets | Assets/Showzup/Phases/ImmediateLoadTransitionCoordination.cs:22-38 | Immediate load: present starts first, and completes last but for OnCompleted. |
| Coordinations.ImmediateLoadBeforeHideAndDeconstruct | Assets/Showzup/Phases/ImmediateLoadTransitionCoordination.cs:25-27 | Load completes before hide starts and before deconstruct starts. |
| Coordinations.ImmediateShowBetweenDeconstructAndTransition | Assets/Showzup/Phases/ImmediateLoadTransitionCoordination.cs:27-29 | Show starts after deconstruct completes and before the transition starts. |
| Coordinations.ImmediateHideAfterTransition | Assets/Showzup/Phases/ImmediateLoadTransitionCoordination.cs:29-31 | Hide completes after the transition and before construct starts. |
| Coordinations.ImmediateEachPhaseOnce | Assets/Showzup/Phases/ImmediateLoadTransitionCoordination.cs:14-38 | Each of the seven phases starts once, then completes once. OnCompleted comes once, last. |
| Coordinations.DelayedOpeningOrder | Assets/Showzup/Phases/DelayedLoadTransitionCoordination.cs:24-32 | Delayed load: present, hide, deconstruct start first, in order. Show starts after deconstruct and before load. |
| Coordinations.DelayedTransitionAfterLoad | Assets/Showzup/Phases/DelayedLoadTransitionCoordination.cs:32-35 | The transition starts after load completes. Hide completes after the transition and before construct starts. |
| Coordinations.DelayedEnding | Assets/Showzup/Phases/DelayedLoadTransitionCoordination.cs:28-41 | The trace ends with show completing, then present, then OnCompleted. Deconstruct starts once and is never completed. |
| Coordinations.DelayedEachOtherPhaseOnce | Assets/Showzup/Phases/DelayedLoadTransitionCoordination.cs:14-42 | Every phase but deconstruct starts once and then completes once. |
| Coordinations.ObservedOrder | Assets/Showzup/Phases/CoordinationBase.cs:31-40 | With the intended phases, two marks that occur once each, in an order, are two notifications the observer receives once each, in that order. |
| Coordinations.ImmediateObservedOrder | Assets/Showzup/Phases/ImmediateLoadTransitionCoordination.cs:22-38 | With the intended phases, the observer of an immediate load receives Load's completion once, before Hide and Deconstruct start, and the transition's completion once, before Hide's. |
| Coordinations.DelayedObservedOrder | Assets/Showzup/Phases/DelayedLoadTransitionCoordination.cs:22-42 | With the intended phases, the observer of a delayed load receives Deconstruct's start once, before Show's, and Load's completion once, before the transition starts. |
| Coordinations.ObserverCompletedOnceAndLast | Assets/Showzup/Phases/ImmediateLoadTransitionCoordination.cs:32-36 | Under either build and for both kinds, the observer is completed exactly once, by the trace's last notification. |
| Coordinations.StartStep | Assets/Showzup/Phases/ImmediateLoadTransitionCoordination.cs:24 | A start action: the performer is Started and PhaseStarting is reported. |
| Coordinations.CompleteStep | Assets/Showzup/Phases/ImmediateLoadTransitionCoordination.cs:30 | A complete action: the performer is Completed and PhaseCompleted is reported. |
| Coordinations.PerformStep | Assets/Showzup/Phases/ImmediateLoadTransitionCoordination.cs:25 | A performed step: PhaseStarting, then PhaseCompleted, and the performer is Completed. |
| Coordinations.AwaitStep | Assets/Showzup/Phases/DelayedLoadTransitionCoordination.cs:30 | Waiting on a started performer's step reports nothing and leaves it Started. |
| Coordinations.RunImmediate | Assets/Showzup/Phases/ImmediateLoadTransitionCoordination.cs:22-38 | For seven distinct performers with either build's phases, the observer receives exactly the immediate-load trace in those phases, and all seven performers end Completed. |
| Coordinations.RunDelayed | Assets/Showzup/Phases/DelayedLoadTransitionCoordination.cs:22-42 | For either build's phases, the observer receives exactly the delayed-load trace in those phases. All performers end Completed except deconstruct, which stays Started. |
| Coordinations.RunKind | Assets/Showzup/Phases/CoordinationBase.cs:42 | Each coordination kind reports its own trace, in the build's phases, and leaves each performer in that kind's final state. |
| Coordinations.Coordination.constructor | Assets/Showzup/Phases/CoordinationBase.cs:14-17 | An unused coordination of the given kind and phase build for the presentation, holding nothing. |
| Coordinations.Coordination.CreatePerformer | Assets/Showzup/Phases/CoordinationBase.cs:24-29 | A fresh Ready performer whose phase is the build's phase for the id (a Present phase as written), reporting to the coordination's observer and added to its disposables. |
| Coordinations.Coordination.CreatePerformers | Assets/Showzup/Phases/ImmediateLoadTransitionCoordination.cs:14-20 | Seven distinct fresh performers, one per requested phase in creation order, carrying the build's phases and all held by the coordination. |
| Coordinations.Coordination.Coordinate | Assets/Showzup/Phases/CoordinationBase.cs:31-40 | A second use throws InvalidOperationException and changes nothing. A first use marks the coordination used, stores the observer, runs the sequence and registers it with the disposables. The observer receives the kind's trace in the build's phases. |
| Coordinations.Coordination.CoordinateInternal | Assets/Showzup/Phases/ImmediateLoadTransitionCoordination.cs:12-38 | Creates the seven performers, then reports the kind's trace in the build's phases. Each new performer carries the build's phase for its id and ends in that phase's final state. |
| Coordinations.Coordination.Dispose | Assets/Showzup/Phases/CoordinationBase.cs:19-22 | Every held performer is disposed and keeps its state. |
| PhaseRuns.Action | Assets/Showzup/Interfaces/Phases/TransitionPresenterImpl.cs:77-81 | An action step completes and produces its signals. |
| PhaseRuns.Then | Assets/Showzup/Interfaces/Phases/DefaultPhaseCoordinator.cs:10-18 | Sequencing: an error in the first part ends everything with that error. Otherwise the signals concatenate and the outcome is the second part's. |
| PhaseRuns.ThenCompletesIffBoth | Assets/Showzup/Interfaces/Phases/DefaultPhaseCoordinator.cs:10-18 | A sequence completes exactly when both parts complete. |
| PhaseRuns.ThenAssociative | Assets/Showzup/Interfaces/Phases/DefaultPhaseCoordinator.cs:10-18 | Grouping does not change a sequence of three steps. |
| PhaseRuns.Join | Assets/Showzup/Interfaces/Phases/TransitionPresenterImpl.cs:132-136 | A phase's parallel: its operation, or an immediate completion when there is none. |
| PhaseRuns.PerformPhase | Assets/Showzup/Interfaces/Phases/TransitionPresenterImpl.cs:125-139 | PhaseStarting comes first. A completed phase produces its operation's signals, then PhaseCompleted. A failed phase stops with the operation's error and never reports PhaseCompleted. |
| PhaseRuns.DefaultCoordinate | Assets/Showzup/Interfaces/Phases/DefaultPhaseCoordinator.cs:10-18 | The coordination completes exactly when all four phases complete. Its signals are always a prefix of the deconstruction, load, transition and construction signals, in that order. |
| PhaseRuns.DefaultCoordinateRunsFourPhasesInOrder | Assets/Showzup/Interfaces/Phases/DefaultPhaseCoordinator.cs:10-18 | With the first three phases completed, the coordination completes exactly when construction does. Its signals are the four phases' signals in order. |
| PhaseRuns.DefaultCoordinateStopsAtFirstError | Assets/Showzup/Interfaces/Phases/DefaultPhaseCoordinator.cs:10-18 | A failing phase ends the coordination with its error, and later phases are never subscribed. The coordination completes exactly when all four phases do. |
| PresenterFlags.Fold | Assets/Showzup/Interfaces/Phases/IPhasedPresenterExtensions.cs:14-28 | With no toggling event the flag keeps its start value. It can end raised after starting lowered only if some event raised it, and lowered after starting raised only if some event lowered it. |
| PresenterFlags.IsPresenting | Assets/Showzup/Interfaces/Phases/IPhasedPresenterExtensions.cs:14-19 | True exactly when some PresentationStarting is followed by no PresentationStarting or PresentationCompleted. |
| PresenterFlags.IsLoading | Assets/Showzup/Interfaces/Phases/IPhasedPresenterExtensions.cs:21-28 | True exactly when some Load PhaseStarting is followed by no Load PhaseStarting or PhaseCompleted. |
| PresenterFlags.FoldIsLastToggle | Assets/Showzup/Interfaces/Phases/IPhasedPresenterExtensions.cs:14-28 | A merged true/false flag with a start value is set exactly when the last toggling event raised it, or when none toggled it and the start value was true. |
| PresenterFlags.QuietEventsKeepFold | Assets/Showzup/Interfaces/Phases/IPhasedPresenterExtensions.cs:14-28 | Events that toggle nothing leave the flag as it was. |
| PresenterFlags.OfPhase | Assets/Showzup/Interfaces/Phases/IPhasedPresenterExtensions.cs:11-12 | Filtering keeps a subsequence of the events. |
| PresenterFlags.OfPhaseKeepsExactly | Assets/Showzup/Interfaces/Phases/IPhasedPresenterExtensions.cs:11-12 | OfPhase keeps exactly the phase events of the requested phase. |
| PresenterFlags.OfPhaseSnoc | Assets/Showzup/Interfaces/Phases/IPhasedPresenterExtensions.cs:11-12 | Filtering a stream extended by one event extends the filtered stream by that event exactly when it belongs to the phase. |
| PresenterFlags.LoadingSeesOnlyLoadPhase | Assets/Showzup/Interfaces/Phases/IPhasedPresenterExtensions.cs:21-28 | IsLoading over the whole stream equals IsLoading over its Load-phase events alone. |
| PresenterFlags.InitialForgottenAfterToggle | Assets/Showzup/Interfaces/Phases/TransitionPresenterImpl.cs:27-41 | Once some event has toggled a flag, its start value no longer matters. |
| PresenterFlags.ReadyIsNotPresenting | Assets/Showzup/Interfaces/Phases/TransitionPresenterImpl.cs:27-33 | IsReady, started at true, is at every point the negation of IsPresenting, started at false. |
| PhasedPresenters.CreatePresentation | Assets/Showzup/Interfaces/Phases/Presentation.cs:14-21 | The presentation carries the resolved view model and view type, the source view and its type (absent exactly when there is no source view), and the caller's options. |
| PhasedPresenters.ResolveTransition | Assets/Showzup/Interfaces/Phases/TransitionPresenterImpl.cs:156-157 | The resolver's answer for the key when both exist; the default transition otherwise. |
| PhasedPresenters.ResolveDuration | Assets/Showzup/Interfaces/Phases/TransitionPresenterImpl.cs:159-160 | The options' duration override when there is one; the transition's duration otherwise. |
| PhasedPresenters.CompletedPhase | Assets/Showzup/Interfaces/Phases/TransitionPresenterImpl.cs:125-139 | A phase whose operation completes is one completed step: starting, the operation, completed. |
| PhasedPresenters.CompletedProvider | Assets/Showzup/Interfaces/Phases/TransitionPresenterImpl.cs:67-72 | When the load completes, every phase the provider hands out completes, with its signals. |
| PhasedPresenters.PresentRun | Assets/Showzup/Interfaces/Phases/TransitionPresenterImpl.cs:74-88 | The pipeline completes exactly when the coordinator's run does. The opening action comes first and then the coordinator's signals. The closing action follows only once the coordinator completes; otherwise the pipeline stops with the coordinator's error. |
| PhasedPresenters.PresentRunOrder | Assets/Showzup/Interfaces/Phases/TransitionPresenterImpl.cs:74-88 | When the load completes, the presentation completes and reports, in this order: <br>• the pre-action; <br>• PresentationStarting; <br>• the deconstruction, load, transition and construction phases; <br>• the post-action; <br>• PresentationCompleted. |
| PhasedPresenters.LoadFailureStopsPresentation | Assets/Showzup/Interfaces/Phases/TransitionPresenterImpl.cs:74-88 | A failing load ends the presentation with its error right after the Load phase starts. No transition, construction, post-action or PresentationCompleted follows. |
| PhasedPresenters.CapabilitiesDecideDeconstructAndConstruct | Assets/Showzup/Interfaces/Phases/TransitionPresenterImpl.cs:99-123 | A completed presentation deconstructs exactly a deconstructable source view, and constructs exactly a constructable loaded view. |
| PhasedPresenters.CompletedPresentationSettlesFlags | Assets/Showzup/Interfaces/Phases/TransitionPresenterImpl.cs:27-41 | After a completed presentation, whatever came before, the presenter is ready, not presenting and not loading. |
| PhasedPresenters.FailedLoadLeavesPresenterBusy | Assets/Showzup/Interfaces/Phases/TransitionPresenterImpl.cs:27-41 | After a failed load, whatever came before, the presenter stays presenting and loading, and is not ready: no error path reports PresentationCompleted, so a navigation control over it refuses every push and pop until a later presentation completes. |
| PhasedPresenters.PresentResultAsWritten | Assets/Showzup/Interfaces/Phases/TransitionPresenterImpl.cs:89 | As written, a completed presentation returns null, because the target view is read when the pipeline is built. A failed one reports its error. |
| PhasedPresenters.AsWrittenPresentDropsLoadedView | Assets/Showzup/Interfaces/Phases/TransitionPresenterImpl.cs:89 | As written, a presentation that loads a non-null view v completes and returns null, not v. |
| PhasedPresenters.PresentResultOf | Assets/Showzup/Interfaces/Phases/TransitionPresenterImpl.cs:89 | As intended, a completed presentation returns the view the Load phase recorded, and a failed one reports its error. |
| PhasedPresenters.LoadedSignalIsTheLoad | Assets/Showzup/Interfaces/Phases/TransitionPresenterImpl.cs:105-110 | A completed presentation reports a loaded view w exactly when the load emitted w. |
| PhasedPresenters.PresentReturnsLoadedView | Assets/Showzup/Interfaces/Phases/TransitionPresenterImpl.cs:89 | As intended, a completed presentation returns exactly the view the load emitted (null when it emitted nothing), and that view is the one reported as loaded. |
| PhasedPresenters.TransitionPresenter.constructor | Assets/Showzup/Interfaces/Phases/TransitionPresenterImpl.cs:48-54 | A new presenter has reported nothing and its flags have not been read. |
| PhasedPresenters.TransitionPresenter.IsReady | Assets/Showzup/Interfaces/Phases/TransitionPresenterImpl.cs:27-33 | Created at first access. From then on it is the negation of IsPresenting over the events reported since. |
| PhasedPresenters.TransitionPresenter.IsLoading | Assets/Showzup/Interfaces/Phases/TransitionPresenterImpl.cs:35-41 | Created at first access. It starts true and follows the Load phase's events reported since. |
| PhasedPresenters.TransitionPresenter.Present | Assets/Showzup/Interfaces/Phases/TransitionPresenterImpl.cs:56-90 | The caller's options gain the presenter's variants in place. The view is resolved with them, and the presentation, transition and duration are resolved. The presenter then reports exactly the pipeline's signals and returns the intended result. |
| PhasedPresenters.PhasedPresenter.constructor | Assets/Showzup/Interfaces/Phases/PhasedPresenterImpl.cs:30-36 | A new presenter has reported nothing. |
| PhasedPresenters.PhasedPresenter.Present | Assets/Showzup/Interfaces/Phases/PhasedPresenterImpl.cs:38-61 | The same, with the transition resolved from the source view's type and the target view type, and with no pre- or post-action. |
| TransitionControls.TransitionStepsFrame | Assets/Showzup/Controls/TransitionControl.cs:115-132 | Prepare comes first, because it runs while the sequence is built. The pre-presentation phase precedes the transition's Perform, Perform precedes Complete, and the post-presentation phase comes last. |
| TransitionControls.TransitionStepsCapabilities | Assets/Showzup/Controls/TransitionControl.cs:146-158 | Deconstruct happens exactly for a deconstructable source view, between the pre-presentation phase and Perform. Construct happens exactly for a constructable target view, between Perform and Complete. |
| TransitionControls.TransitionControl.constructor | Assets/Showzup/Controls/TransitionControl.cs:64-68 | A new control has no container roles assigned, no views and no steps. |
| TransitionControls.TransitionControl.Start | Assets/Showzup/Controls/TransitionControl.cs:70-77 | Both containers are deactivated and keep their content. |
| TransitionControls.TransitionControl.OnViewReady | Assets/Showzup/Controls/TransitionControl.cs:104-109 | The current view becomes the source and the loaded view the target. Nothing else changes. |
| TransitionControls.TransitionControl.PrepareContainers | Assets/Showzup/Controls/TransitionControl.cs:160-178 | The first preparation makes Container1 the target. Each later one swaps the roles. The target holds the target view, and both containers and the target view are active. |
| TransitionControls.TransitionControl.CompleteTransition | Assets/Showzup/Controls/TransitionControl.cs:180-188 | The source view is deactivated and the target becomes the current view. The source container is emptied and deactivated. |
| TransitionControls.TransitionControl.PerformTransition | Assets/Showzup/Controls/TransitionControl.cs:115-132 | The roles swap. The target container holds and shows the target view, and the source container is emptied and hidden. The target is current. The recorded steps are exactly TransitionSteps. |
| TransitionControls.TransitionControl.Present | Assets/Showzup/Controls/TransitionControl.cs:83-102 | The options gain the control's variants. The result is the loader's outcome. When nothing is loaded, nothing is transitioned and the containers and the current view are unchanged. A loaded view is transitioned with the resolved transition and duration: the containers swap roles (Container1 becomes the first target), the target container holds the view and is active, the source container is emptied and deactivated, the previous view is deactivated, and a loaded view other than the previous one is activated (re-presenting the current view leaves it deactivated, as CompleteTransition does). |
| Navigation.CanPop | Assets/Showzup/Controls/NavigationControl.cs:33-38 | Popping needs the presenter ready and at least one history entry. A ready presenter with two or more entries can always pop. With the top-level view protected, a single entry cannot be popped. |
| Navigation.Take | Assets/Showzup/Controls/NavigationControl.cs:85 | LINQ Take: the first min(n, length) elements, none for n ≤ 0. |
| Navigation.GetNewHistory | Assets/Showzup/Controls/NavigationControl.cs:81-86 | The new view is always last. Child appends it. Sibling replaces the top, or pushes on an empty history. Any other mode leaves only the view. |
| Navigation.NewHistoryIsPrefixPlusView | Assets/Showzup/Controls/NavigationControl.cs:81-86 | Every new history is a prefix of the old one followed by the view. |
| Navigation.PopPlan | Assets/Showzup/Controls/NavigationControl.cs:88-100 | Refused with "Cannot pop at this moment" exactly when popping is not allowed. Otherwise the target is the entry below the top (null for a single entry) and the history loses its top. |
| Navigation.PopToRootPlan | Assets/Showzup/Controls/NavigationControl.cs:102-111 | Refused exactly when popping is not allowed. Otherwise the history is reduced to its first entry, which becomes the target. |
| Navigation.PopToPlan | Assets/Showzup/Controls/NavigationControl.cs:113-121 | The three refusals, in this order: <br>• popping not allowed; <br>• the view is not in the history; <br>• the view is already on top. <br>Planned exactly when none applies; the history then runs up to the view's first occurrence. |
| Navigation.PopUndoesChildPush | Assets/Showzup/Controls/NavigationControl.cs:81-100 | Popping right after a child push returns to the previous top with the old history. |
| Navigation.PopToBelowTopIsPop | Assets/Showzup/Controls/NavigationControl.cs:88-121 | PopTo the entry below the top, when that entry occurs only there, is the same plan as Pop. |
| Navigation.NavigationControl.constructor | Assets/Showzup/Controls/NavigationControl.cs:19-43 | A new control has an empty history and no view. |
| Navigation.NavigationControl.DisposeDroppedViews | Assets/Showzup/Controls/NavigationControl.cs:153-167 | Every non-null view of the old history missing from the new one is destroyed. A disposable one is disposed once per occurrence in the old history. No other field of those views changes. |
| Navigation.NavigationControl.Navigate | Assets/Showzup/Controls/NavigationControl.cs:65-79 | The loaded view becomes current, the new history is installed, and the dropped views are disposed. |
| Navigation.NavigationControl.Present | Assets/Showzup/Controls/NavigationControl.cs:47-56 | Throws "Cannot present at this moment" unless ready, changing nothing. Otherwise the loaded view becomes current and the history follows the push mode, with dropped views disposed. |
| Navigation.NavigationControl.RunPlan | Assets/Showzup/Controls/NavigationControl.cs:123-124 | A refused plan throws and changes nothing. Otherwise the plan's target becomes current and its history is installed. |
| Navigation.NavigationControl.Pop | Assets/Showzup/Controls/NavigationControl.cs:88-100 | Exactly PopPlan's outcome on the current history. The views a planned pop drops from the history have their GameObject destroyed and are disposed once per old occurrence when disposable; only they are touched. |
| Navigation.NavigationControl.PopToRoot | Assets/Showzup/Controls/NavigationControl.cs:102-111 | Exactly PopToRootPlan's outcome on the current history. The views a planned pop drops from the history have their GameObject destroyed and are disposed once per old occurrence when disposable; only they are touched. |
| Navigation.NavigationControl.PopTo | Assets/Showzup/Controls/NavigationControl.cs:113-121 | Exactly PopToPlan's outcome on the current history. The views a planned pop drops from the history have their GameObject destroyed and are disposed once per old occurrence when disposable; only they are touched. |
| ListControls.ScanFrom | Assets/Showzup/Controls/ListControl.cs:32-33 | FirstOrDefault from an index, reading each entry's view model: <br>• null exactly when no later entry matches and none is null; <br>• otherwise the first match; <br>• a NullReferenceException when a null entry comes before any match. |
| ListControls.LoadItems | Assets/Showzup/Controls/ListControl.cs:82-90 | The items are loaded one after another with the merged variants. At most one view per item. |
| ListControls.LoadItemsExtend | Assets/Showzup/Controls/ListControl.cs:88-89 | Loading one more item steps the prefix's batch, unless the prefix already failed. |
| ListControls.LoadItemsFailsAtFirstFailure | Assets/Showzup/Controls/ListControl.cs:88-89 | The load completes exactly when no item fails. Otherwise it reports the error of the first failing item. |
| ListControls.EveryItemEmitsInOrder | Assets/Showzup/Controls/ListControl.cs:88-89 | When every item emits, the list holds those views, one per item, in item order. |
| ListControls.FailedPrefixDecides | Assets/Showzup/Controls/ListControl.cs:88-89 | Once a prefix has failed, later items change nothing. |
| ListControls.Classify | Assets/Showzup/Controls/ListControl.cs:53-54 | The `is IEnumerable` test: an argument yields its items exactly when it is non-null and enumerable. Any other argument, null included, becomes a single item. |
| ListControls.NullInputIsOneItem | Assets/Showzup/Controls/ListControl.cs:53-56 | Whatever values are enumerable, a null argument is loaded as the single item null. A non-enumerable argument is loaded alone, and an enumerable one item by item. |
| ListControls.Snapshots | Assets/Showzup/Controls/ListControl.cs:68-72 | The contents of the Views property at each notification while views are appended: at the i-th, the first i+1 views. |
| ListControls.SnapshotsExtend | Assets/Showzup/Controls/ListControl.cs:70-71 | One more appended view adds one snapshot: the extended list. |
| ListControls.ListControl.constructor | Assets/Showzup/Controls/ListControl.cs:26-30 | A new list is empty, and the empty list is its only published value. |
| ListControls.ListControl.GetViewForViewModel | Assets/Showzup/Controls/ListControl.cs:32-33 | Null exactly when no entry matches and none is null. A non-null result is the first entry whose view model matches. It throws NullReferenceException only when a null entry comes before every match. |
| ListControls.ListControl.IndexOfView | Assets/Showzup/Controls/ListControl.cs:35-45 | A value exactly for a non-null view in the list: the index of its first occurrence. |
| ListControls.ListControl.GetViewAtIndex | Assets/Showzup/Controls/ListControl.cs:47-48 | Null for no index. The entry at a valid index. ArgumentOutOfRangeException exactly for an index out of range. |
| ListControls.ListControl.Present | Assets/Showzup/Controls/ListControl.cs:50-74 | The list is cleared and republished, and the caller's options gain the control's variants. The list ends as LoadItems of the classified argument's items, and the call fails with its error. One publication follows per appended view. |
| ListControls.ListControl.Append | Assets/Showzup/Controls/ListControl.cs:68-72 | The view is appended and the new list published. |
| ListControls.ListControl.LoadViews | Assets/Showzup/Controls/ListControl.cs:82-90 | The loop appends each emitted view in item order and stops at the first failure: views and failure equal LoadItems, and each append is published. |
| ListControls.IndexOfViewRoundTrip | Assets/Showzup/Controls/ListControl.cs:35-48 | The index found for a view leads back to that view. A missing or null view leads to null. |
| ListControls.FirstOccurrenceIsFoundAgain | Assets/Showzup/Controls/ListControl.cs:35-45 | The index of an entry's first occurrence is what IndexOfView returns for it. |
| Selection.ToggleItems | Assets/Showzup/Controls/SelectionControl.cs:41-54 | The previous selectable value is deselected and the new selectable value selected. Values that are not selectable keep their flag. |
| Selection.ToggleViews | Assets/Showzup/Controls/SelectionControl.cs:41-54 | The same for views. |
| Selection.SelectionControl.constructor | Assets/Showzup/Controls/SelectionControl.cs:13-39 | Nothing selected, the guard down, and both IsSelected handlers holding null as their previous value. |
| Selection.SelectionControl.ItemSelectionUpdate | Assets/Showzup/Controls/SelectionControl.cs:43-52 | The item IsSelected handler: the item it last received is deselected unless it is the new one, the new one selected, and the new one becomes its previous value. |
| Selection.SelectionControl.ViewSelectionUpdate | Assets/Showzup/Controls/SelectionControl.cs:43-52 | The same for the view IsSelected handler. |
| Selection.SelectionControl.SetSelectedItem | Assets/Showzup/Controls/SelectionControl.cs:15-24 | An unchanged value does nothing. Otherwise the item is stored. With the guard up, nothing else is synchronised. With it down, the selected view becomes the list's view for the item. Then the items are toggled from the item the handler last received, and a changed view is toggled from the view its handler last received. A lookup that throws leaves the guard up and skips both handlers. While no handler has thrown, the handlers' previous values are the stored ones. No other list view's flag changes. |
| Selection.SelectionControl.SyncViewToItem | Assets/Showzup/Controls/SelectionControl.cs:17-22 | Raises the guard and looks the item up. A throwing lookup leaves the guard raised. Otherwise the found view is selected, the views are toggled from the view the handler last received, and the guard is lowered. No other list view's flag changes. |
| Selection.SelectionControl.SetSelectedView | Assets/Showzup/Controls/SelectionControl.cs:26-35 | An unchanged value does nothing. Otherwise the view is stored. With the guard down, a null view throws NullReferenceException and leaves the guard up; a non-null one makes its view model the selected item, toggling the items. Unless it threw, the view handler toggles from the view it last received, so, after SetSelectedView(v1), SetSelectedView(null), SetSelectedView(w), v1 is deselected. While no handler has thrown, the handlers' previous values are the stored ones. |

## Left out

- Asset loading, Object.Instantiate and dependency injection are not modelled. Their results are parameters of ViewLoading.ViewLoader.Load.
- ViewLoader.LoadLoadable (ILoadable) is not modelled; a loaded view is emitted once bound.
- Reflection in ViewResolver.Initialize (GetAllViewTypes, GetViewModelType, the attributes) is not modelled. The discovered mappings are a parameter.
- Types are modelled by an id and a base-type chain. IsAssignableTo is membership in that chain, so interfaces are not modelled separately.
- UniRx scheduling, subjects and concurrency are not modelled:
  - every awaited step is taken to complete when awaited;
  - in ListControl, SelectMany is taken to load the items one after another in item order, so interleaved completions are not modelled.
- PhasedPresenters.PresentRun: the IPhaseCoordinator both presenters receive in their constructors (TransitionPresenterImpl.cs:48-54, PhasedPresenterImpl.cs:30-36) is fixed to DefaultPhaseCoordinator, modelled by PhaseRuns.DefaultCoordinate; other coordinators are not modelled.
- PresenterControls.PresenterControl.CompleteRequest: follows the event model, so the pending request is presented once. In the code, PresentNow runs before `_pendingRequest` is cleared (PresenterControlBase.cs:124-127). If the load and the presentation complete synchronously, as with a ready view given to ViewLoader.Load, the nested CompleteRequest still sees the same pending request and presents it again. That re-entrant case is not modelled.
- The observers a ReactiveProperty notifies at subscription time are not modelled. The model starts from the initial values.
- TransitionControl's _isPresenting and _isLoading are never set by the code, so they are not modelled.
- ListControls.ListControl.Present: each entry of `publications` records the list's contents when it was published. The code publishes `_views.AsReadOnly()` (ListControl.cs:28, 63, 71), a live read-only wrapper around one list. A subscriber that keeps an earlier value sees it grow with later appends, and after the next Present's `_views.Clear()` it reads as empty. That aliasing is not modelled.
- TransitionControls.TransitionControl.constructor: requires two distinct containers. The code does not check this, but swapping roles between one container and itself would be meaningless.
- Only the load can fail in the presenters and the transition control. Deconstruct, construct and transition errors are not modelled.
- The Transition class (Prepare, Perform, Complete), ZoomTransition and View.cs are out of scope. Their calls are recorded as steps.
- ItemControl, HistoryContainer, NavigationService and the keyboard navigation are out of scope.
- The base Control's RemoveAllViews and AddView (the container hierarchy) are not modelled.
- Floating-point durations are modelled as `real`. Only the choice between the override and the transition's duration matters.
- Error messages that interpolate a view or a type name are modelled without the interpolated text. This applies to NavigationControl's PopTo refusals and the loader's messages.
- Navigation.NavigationControl.RunPlan: the Backward direction that a pop passes in its options is not recorded, because the model does not carry the presentation itself.
- Navigation.NavigationControl.Present, Navigation.NavigationControl.Pop, Navigation.NavigationControl.PopToRoot and Navigation.NavigationControl.PopTo: the readiness of the presenter is a parameter. The presentation pipeline is reduced to the view it loaded, so a failed load is not modelled there.
- PhasedPresenters.TransitionPresenter.Present and PhasedPresenters.PhasedPresenter.Present: the view resolver's Resolve and its ViewInfo are not in this revision of the source, so the resolver is a function parameter.
- Options.Duration and Options.TransitionDuration: the presenters read TransitionDuration and TransitionControl reads Duration. The model has one optional duration for both.
- PhasedPresenters.TransitionPresenter.Present and PhasedPresenters.PhasedPresenter.Present: both return the corrected result (see Findings). The as-written result is modelled separately.
- PhasePerformers.PhasePerformer: the exception messages that interpolate the state are not modelled.
- Phases are values, not objects. As written, the seven Phase objects of a coordination are distinct references with their own Step, and they differ only in identity. The model tells them apart only by id, and each performer's step completion is a field of the performer.
- Selection.SelectionControl.constructor: UniRx's ReactiveProperty publishes its current value on subscription. As written, the SelectedView handler subscribed at SelectionControl.cs:26 then receives null, and line 32 throws NullReferenceException with the guard up, so the constructor fails before the IsSelected handlers are subscribed. The model's constructor starts from the state the code evidently intends instead, because the publish-on-subscribe behaviour belongs to UniRx.
- Selection.SelectionControl.SetSelectedItem and Selection.SelectionControl.SetSelectedView: neither handler lowers the guard in a `finally`. The model keeps that: after a throw the guard stays up, and from then on neither property synchronises the other.
- PhasedPresenters.ResolveDuration: the transition is a value, so a null transition cannot be expressed. In the code, a null default transition with no resolver answer and no duration override throws NullReferenceException at `transition.Duration` (TransitionPresenterImpl.cs:160, PhasedPresenterImpl.cs:132, TransitionControl.cs:113).
- PhasedPresenters.TransitionPresenter.Present: that null-transition NullReferenceException (TransitionPresenterImpl.cs:160) is not modelled.
- PhasedPresenters.PhasedPresenter.Present: that null-transition NullReferenceException (PhasedPresenterImpl.cs:132) is not modelled.
- TransitionControls.TransitionControl.Present: that null-transition NullReferenceException (TransitionControl.cs:113) is not modelled.
- ViewLoading.ViewLoader.Instantiate: the non-editor path is modelled. Under UNITY_EDITOR the code disables the views of a copy of the prefab and destroys the copy afterwards, leaving the prefab itself untouched (ViewLoader.cs:125-134); the model disables the prefab's views in place.
- Selection.SelectionControl: ISelectable is modelled as a `selectable` flag on views and view models. SelectionControl derives from ListControl in the code; the model holds its list by composition.
- TransitionControls.TransitionControl.ResolveTransition has no contract of its own. The PhasedPresenters.ResolveTransition it delegates to carries it.
- PresenterControls.Control.CancelLoading: states only the cancelled channel's status and where the in-flight request may go. The full new state is stated by the Present functions that use it.

## Findings

| source | as written | input that shows it | evidently intended | confidence | as-written member | corrected member |
|---|---|---|---|---|---|---|
| Assets/Showzup/Phases/CoordinationBase.cs:24-29 | CreatePerformer ignores its `id` and builds every phase with PhaseId.Present | CreatePerformer(PhaseId.Load): its phase's id is Present, the same phase as the Construct performer's | the phase carries the requested id | high, not executed | Coordinations.AsWrittenLoadPerformerIsNotLoad | Coordinations.PerformerPhase |
| Assets/Showzup/Interfaces/Phases/TransitionPresenterImpl.cs:89 | `.ThenReturn(presentation.TargetView)` reads TargetView when the pipeline is built, before the Load phase runs; PhasedPresenterImpl.cs:60 does the same | a presentation whose load emits a view v: Present's observable emits null instead of v | return the view the Load phase loaded | medium, not executed | PhasedPresenters.AsWrittenPresentDropsLoadedView | PhasedPresenters.PresentReturnsLoadedView |
