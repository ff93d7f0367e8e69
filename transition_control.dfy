/** The double-buffered transition control (Controls/TransitionControl.cs): two
    container slots whose source and target roles swap on every transition,
    the hand-off of the current view from the source to the target, and the
    fixed order of the steps a transition performs. The calls it makes on the
    transition, on the views and on the phase subjects are recorded as steps;
    every step is taken to complete. */
module TransitionControls {
  import opened Types
  import opened OptionsExtensions
  import opened ViewLoading
  import Presenters = PhasedPresenters

  /** The two phase subjects the transition control emits on. */
  datatype ControlPhase = PrePresentation | PostPresentation

  /** What a transition does, in the order it happens. */
  datatype ControlStep =
    | PhaseEmitted(kind: ControlPhase, input: Input, options: Options?, source: View?, target: View?)
    | Deconstructing(view: View)
    | Prepared(transition: Transition, sourceContainer: Container, targetContainer: Container, direction: Direction)
    | Performed(transition: Transition, sourceContainer: Container, targetContainer: Container,
                direction: Direction, duration: real)
    | Constructing(view: View)
    | TransitionCompleted(transition: Transition, sourceContainer: Container, targetContainer: Container)

  /** The steps of PerformTransition from source view `source` to target view
      `target` between the containers `src` and `tgt`: the transition is
      prepared while the sequence is built; then the pre-presentation phase,
      the deconstruction of an IDeconstructable source, the transition itself,
      the construction of an IConstructable target, the completion and the
      post-presentation phase run in this order. */
  function TransitionSteps(input: Input, options: Options?, source: View?, target: View?, t: Transition,
                           duration: real, direction: Direction, src: Container, tgt: Container): seq<ControlStep>
  {
    [Prepared(t, src, tgt, direction), PhaseEmitted(PrePresentation, input, options, source, target)] +
    (if source != null && source.deconstructable then [Deconstructing(source)] else []) +
    [Performed(t, src, tgt, direction, duration)] +
    (if target != null && target.constructable then [Constructing(target)] else []) +
    [TransitionCompleted(t, src, tgt), PhaseEmitted(PostPresentation, input, options, source, target)]
  }

  /** `a` occurs in `s` at an earlier position than `b`. */
  predicate Before<T(==)>(s: seq<T>, a: T, b: T)
  {
    exists i, j :: 0 <= i < j < |s| && s[i] == a && s[j] == b
  }

  /** The transition is prepared first and the post-presentation phase comes
      last; the pre-presentation phase precedes the transition, which precedes
      its completion. */
  lemma TransitionStepsFrame(input: Input, options: Options?, source: View?, target: View?, t: Transition,
                             duration: real, direction: Direction, src: Container, tgt: Container)
    ensures var s := TransitionSteps(input, options, source, target, t, duration, direction, src, tgt);
      s[0] == Prepared(t, src, tgt, direction) &&
      s[|s| - 1] == PhaseEmitted(PostPresentation, input, options, source, target) &&
      Before(s, PhaseEmitted(PrePresentation, input, options, source, target), Performed(t, src, tgt, direction, duration)) &&
      Before(s, Performed(t, src, tgt, direction, duration), TransitionCompleted(t, src, tgt)) &&
      Before(s, TransitionCompleted(t, src, tgt), PhaseEmitted(PostPresentation, input, options, source, target))
  {
    var s := TransitionSteps(input, options, source, target, t, duration, direction, src, tgt);
    var d := if source != null && source.deconstructable then 1 else 0;
    var c := if target != null && target.constructable then 1 else 0;
    assert s[1] == PhaseEmitted(PrePresentation, input, options, source, target);
    assert s[2 + d] == Performed(t, src, tgt, direction, duration);
    assert s[3 + d + c] == TransitionCompleted(t, src, tgt);
    assert s[4 + d + c] == PhaseEmitted(PostPresentation, input, options, source, target);
  }

  /** Deconstruction happens exactly for an IDeconstructable source view,
      after the pre-presentation phase and before the transition runs;
      construction happens exactly for an IConstructable target view, after
      the transition and before its completion. */
  lemma TransitionStepsCapabilities(input: Input, options: Options?, source: View?, target: View?, t: Transition,
                                    duration: real, direction: Direction, src: Container, tgt: Container, v: View)
    ensures var s := TransitionSteps(input, options, source, target, t, duration, direction, src, tgt);
      (Deconstructing(v) in s <==> v == source && v.deconstructable) &&
      (Constructing(v) in s <==> v == target && v.constructable) &&
      (v == source && v.deconstructable ==>
        Before(s, PhaseEmitted(PrePresentation, input, options, source, target), Deconstructing(v)) &&
        Before(s, Deconstructing(v), Performed(t, src, tgt, direction, duration))) &&
      (v == target && v.constructable ==>
        Before(s, Performed(t, src, tgt, direction, duration), Constructing(v)) &&
        Before(s, Constructing(v), TransitionCompleted(t, src, tgt)))
  {
    var s := TransitionSteps(input, options, source, target, t, duration, direction, src, tgt);
    var d := if source != null && source.deconstructable then 1 else 0;
    assert s[1] == PhaseEmitted(PrePresentation, input, options, source, target);
    assert s[2 + d] == Performed(t, src, tgt, direction, duration);
    if v == source && v.deconstructable {
      assert s[2] == Deconstructing(v);
    }
    if v == target && v.constructable {
      assert s[3 + d] == Constructing(v);
      assert s[4 + d] == TransitionCompleted(t, src, tgt);
    }
  }

  class TransitionControl {
    const container1: Container
    const container2: Container
    const defaultTransition: Transition
    const variants: seq<string>
    /** The optional transition resolver, asked with the source and target views. */
    const transitionResolver: Option<((View?, View?)) -> Option<Transition>>
    var sourceContainer: Container?
    var targetContainer: Container?
    var sourceView: View?
    var targetView: View?
    /** The current view (the `_view` reactive property). */
    var view: View?
    var steps: seq<ControlStep>
    /** How many times the containers have been prepared. */
    ghost var preparations: nat

    /** The containers are lazily assigned together; once assigned they are
        the two distinct slots in one role each, and the target is Container1
        exactly after an odd number of preparations. */
    ghost predicate Valid()
      reads this
    {
      container1 != container2 &&
      (sourceContainer == null <==> targetContainer == null) &&
      (sourceContainer == null ==> preparations == 0) &&
      (sourceContainer != null ==>
        ((sourceContainer == container2 && targetContainer == container1) ||
         (sourceContainer == container1 && targetContainer == container2)) &&
        (targetContainer == container1 <==> preparations % 2 == 1))
    }

    constructor (c1: Container, c2: Container, t: Transition, presenterVariants: seq<string>,
                 resolver: Option<((View?, View?)) -> Option<Transition>>)
      requires c1 != c2
      ensures Valid() && container1 == c1 && container2 == c2
      ensures defaultTransition == t && variants == presenterVariants && transitionResolver == resolver
      ensures sourceContainer == null && targetContainer == null
      ensures sourceView == null && targetView == null && view == null && steps == []
    {
      container1, container2, defaultTransition, variants := c1, c2, t, presenterVariants;
      transitionResolver := resolver;
      sourceContainer, targetContainer := null, null;
      sourceView, targetView, view := null, null, null;
      steps := [];
      preparations := 0;
    }

    /** Start: both containers are deactivated. */
    method Start()
      modifies container1, container2
      ensures !container1.active && !container2.active
      ensures container1.content == old(container1.content) && container2.content == old(container2.content)
    {
      container1.active := false;
      container2.active := false;
    }

    /** OnViewReady: the current view becomes the source, the loaded view the
        target. */
    method OnViewReady(loaded: View?)
      modifies this
      ensures sourceView == old(view) && targetView == loaded
      ensures view == old(view) && steps == old(steps) && preparations == old(preparations)
      ensures sourceContainer == old(sourceContainer) && targetContainer == old(targetContainer)
    {
      sourceView := view;
      targetView := loaded;
    }

    /** ResolveTransition: the resolver's answer for the source and target
        views, or the default transition. */
    function ResolveTransition(): Transition
      reads this
    {
      Presenters.ResolveTransition(transitionResolver, (sourceView, targetView), defaultTransition)
    }

    /** PrepareContainers: lazily assigns Container1 as source and Container2
        as target, then swaps the roles, so the first transition targets
        Container1; puts the target view in the target container and activates
        both containers and the target view. Its call to the transition's
        Prepare is recorded by PerformTransition. */
    method PrepareContainers(target: View?, t: Transition, direction: Direction)
      requires Valid()
      modifies this, container1, container2, target
      ensures Valid() && preparations == old(preparations) + 1
      ensures old(sourceContainer) == null ==> sourceContainer == container2 && targetContainer == container1
      ensures old(sourceContainer) != null ==>
        sourceContainer == old(targetContainer) && targetContainer == old(sourceContainer)
      ensures targetContainer.content == target && targetContainer.active && sourceContainer.active
      ensures sourceContainer.content ==
        (if sourceContainer == container1 then old(container1.content) else old(container2.content))
      ensures target != null ==> target.isActive
      ensures steps == old(steps)
      ensures sourceView == old(sourceView) && targetView == old(targetView) && view == old(view)
    {
      if sourceContainer == null {
        sourceContainer := container1;
      }
      if targetContainer == null {
        targetContainer := container2;
      }
      var temp := targetContainer;
      targetContainer := sourceContainer;
      sourceContainer := temp;
      preparations := preparations + 1;
      targetContainer.content := target;
      sourceContainer.active := true;
      targetContainer.active := true;
      if target != null {
        target.isActive := true;
      }
    }

    /** CompleteTransition: deactivates the source view, makes the target the
        current view, and empties and deactivates the source container. Its
        call to the transition's Complete is recorded by PerformTransition. */
    method CompleteTransition(t: Transition)
      requires Valid() && sourceContainer != null
      modifies this, container1, container2, sourceView
      ensures Valid() && preparations == old(preparations)
      ensures sourceContainer == old(sourceContainer) && targetContainer == old(targetContainer)
      ensures sourceView == old(sourceView) && targetView == old(targetView)
      ensures sourceView != null ==> !sourceView.isActive
      ensures view == targetView
      ensures sourceContainer.content == null && !sourceContainer.active
      ensures targetContainer.content == old(targetContainer.content) && targetContainer.active == old(targetContainer.active)
      ensures steps == old(steps)
    {
      if sourceView != null {
        sourceView.isActive := false;
      }
      view := targetView;
      sourceContainer.content := null;
      sourceContainer.active := false;
    }

    /** PerformTransition: the steps of TransitionSteps between the swapped
        containers. Afterwards the target view is the current view, shown in the
        active target container, and the source container is empty and
        inactive. */
    method PerformTransition(input: Input, t: Transition, duration: real, options: Options?)
      requires Valid()
      modifies this, container1, container2, sourceView, targetView
      ensures Valid() && preparations == old(preparations) + 1
      ensures old(sourceContainer) == null ==> sourceContainer == container2 && targetContainer == container1
      ensures old(sourceContainer) != null ==>
        sourceContainer == old(targetContainer) && targetContainer == old(sourceContainer)
      ensures sourceView == old(sourceView) && targetView == old(targetView) && view == targetView
      ensures targetContainer.content == targetView && targetContainer.active
      ensures sourceContainer.content == null && !sourceContainer.active
      ensures sourceView != null ==> !sourceView.isActive
      ensures targetView != null && targetView != sourceView ==> targetView.isActive
      ensures steps == old(steps) + TransitionSteps(input, options, sourceView, targetView, t, duration,
                                                     GetDirection(options), sourceContainer, targetContainer)
    {
      var direction := GetDirection(options);
      PrepareContainers(targetView, t, direction);
      CompleteTransition(t);
      steps := steps + TransitionSteps(input, options, sourceView, targetView, t, duration,
                                       direction, sourceContainer, targetContainer);
    }

    /** Present: loads the view with the options extended by the control's
        variants; a loaded view goes through OnViewReady and the resolved
        transition, and is what Present emits: the containers swap roles, the
        target container shows the loaded view, and the source container and
        the previous view are deactivated. A load that fails or loads
        nothing transitions nothing and leaves the containers and the current
        view as they were. */
    method Present(input: Input, options: Options?, load: LoadResult) returns (r: LoadResult)
      requires Valid()
      modifies this, options, container1, container2, view,
        if load.Emits? && load.view != null then {load.view} else {}
      ensures Valid() && r == load
      ensures options != null ==> options.variants == old(options.variants) + variants
      ensures options != null ==> options.duration == old(options.duration) && options.direction == old(options.direction)
      ensures !load.Emits? ==>
        steps == old(steps) && view == old(view) && preparations == old(preparations) &&
        sourceView == old(sourceView) && targetView == old(targetView) &&
        sourceContainer == old(sourceContainer) && targetContainer == old(targetContainer)
      ensures load.Emits? ==>
        sourceView == old(view) && targetView == load.view && view == load.view &&
        preparations == old(preparations) + 1 &&
        var t := ResolveTransition();
        steps == old(steps) + TransitionSteps(input, options, old(view), load.view, t,
                                               Presenters.ResolveDuration(t, options), GetDirection(options),
                                               sourceContainer, targetContainer)
      ensures !load.Emits? ==> unchanged(container1, container2) && (view != null ==> unchanged(view))
      ensures load.Emits? ==>
        (old(sourceContainer) == null ==> sourceContainer == container2 && targetContainer == container1) &&
        (old(sourceContainer) != null ==>
          sourceContainer == old(targetContainer) && targetContainer == old(sourceContainer))
      ensures load.Emits? && sourceContainer != null && targetContainer != null ==>
        targetContainer.content == load.view && targetContainer.active &&
        sourceContainer.content == null && !sourceContainer.active
      ensures load.Emits? && old(view) != null ==> !old(view).isActive
      ensures load.Emits? && load.view != null && load.view != old(view) ==> load.view.isActive
    {
      var extended := WithExtraVariants(options, variants);
      if load.Emits? {
        OnViewReady(load.view);
        var t := ResolveTransition();
        var duration := Presenters.ResolveDuration(t, options);
        PerformTransition(input, t, duration, options);
      }
      r := load;
    }
  }
}
