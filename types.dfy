/** Shared data model of the presentation engine: the options a caller passes,
    the type hierarchy used by view resolution, the objects the engine touches
    (views, view models, game objects, containers, cancellation tokens), the
    phase identifiers and the presentation record. */
module Types {

  datatype Option<+T> = None | Some(value: T)

  /** The exceptions the core raises, by their .NET class. */
  datatype Exception =
    | InvalidOperation(message: string)
    | NotSupported(message: string)
    | NullReference
    | ArgumentOutOfRange

  /** The success/exception outcome of an operation that may throw. */
  datatype Outcome = Done | Threw(error: Exception)

  /** A runtime type: its name and the chain of its base types, nearest first. */
  type TypeId = string

  datatype ClrType = ClrType(id: TypeId, bases: seq<TypeId>, implementsView: bool)
  {
    /** The types visited by walking BaseType from this type until null. */
    function SelfAndAncestors(): (chain: seq<TypeId>)
      ensures |chain| == |bases| + 1 && chain[0] == id
    {
      [id] + bases
    }
  }

  datatype Direction = DirectionDefault | Forward | Backward

  datatype PushMode = PushModeDefault | Child | Sibling | Root

  /** A transition effect; only its intrinsic duration matters to the core. */
  datatype Transition = Transition(name: string, duration: real)

  /** A presentation request's options (Types/Options.cs). A fresh instance has
      the zero direction and push mode, no variants, no transition override and
      no duration override. */
  class Options {
    var direction: Direction
    var pushMode: PushMode
    var variants: seq<string>
    var transition: Option<Transition>
    var duration: Option<real>

    constructor ()
      ensures direction == DirectionDefault && pushMode == PushModeDefault
      ensures variants == [] && transition == None && duration == None
    {
      direction, pushMode := DirectionDefault, PushModeDefault;
      variants, transition, duration := [], None, None;
    }

    constructor WithDirection(d: Direction)
      ensures direction == d && pushMode == PushModeDefault
      ensures variants == [] && transition == None && duration == None
    {
      direction, pushMode := d, PushModeDefault;
      variants, transition, duration := [], None, None;
    }
  }

  /** A view model object; it may expose the optional ISelectable capability. */
  class ViewModel {
    const typeId: TypeId
    const selectable: bool
    var isSelected: bool

    constructor (t: TypeId, canSelect: bool)
      ensures typeId == t && selectable == canSelect && !isSelected
    {
      typeId, selectable, isSelected := t, canSelect, false;
    }
  }

  /** A materialised view component. The constant flags are the optional
      capabilities the core detects by type tests (IDeconstructable,
      IConstructable, IDisposable, ISelectable, ILoadable); `destroyed` stands for
      the destruction of its GameObject. */
  class View {
    const viewType: ClrType
    const deconstructable: bool
    const constructable: bool
    const disposable: bool
    const selectable: bool
    var viewModel: ViewModel?
    var isActive: bool
    var isSelected: bool
    var destroyed: bool
    var disposeCount: nat

    constructor (t: ClrType, canDeconstruct: bool, canConstruct: bool, canDispose: bool, canSelect: bool)
      ensures viewType == t && deconstructable == canDeconstruct && constructable == canConstruct
      ensures disposable == canDispose && selectable == canSelect
      ensures viewModel == null && !isActive && !isSelected && !destroyed && disposeCount == 0
    {
      viewType, deconstructable, constructable, disposable, selectable := t, canDeconstruct, canConstruct, canDispose, canSelect;
      viewModel, isActive, isSelected, destroyed, disposeCount := null, false, false, false, 0;
    }
  }

  /** A Unity GameObject: its name, its IView components in component order, and
      whether it was destroyed. */
  class GameObject {
    const name: string
    const components: seq<View>
    var destroyed: bool

    constructor (n: string, cs: seq<View>)
      ensures name == n && components == cs && !destroyed
    {
      name, components, destroyed := n, cs, false;
    }
  }

  /** A display container: a slot holding at most one view, and an active flag. */
  class Container {
    var content: View?
    var active: bool

    constructor ()
      ensures content == null && !active
    {
      content, active := null, false;
    }
  }

  /** A cancellation token backed by a boolean disposable. */
  class CancellationToken {
    var isCancellationRequested: bool

    constructor ()
      ensures !isCancellationRequested
    {
      isCancellationRequested := false;
    }
  }

  /** What a caller may hand to a presenter or to the view loader. */
  datatype Input =
    | NullInput
    | ViewInput(view: View)
    | TypeInput(clrType: ClrType)
    | ModelInput(model: ViewModel)

  /** Phase identifiers of both phase vocabularies used by the engine. */
  datatype PhaseId =
    | Deconstruction | Load | TransitionPhase | Unload | Construction
    | Present | Show | Hide | Construct | Deconstruct

  /** One presentation (Interfaces/Phases/Presentation.cs): the view model, the
      source view and its runtime type, the resolved target view type and the
      options. The target view, set by the Load phase, is kept by the run. */
  datatype Presentation = Presentation(
    viewModel: ViewModel?,
    sourceView: View?,
    sourceViewType: Option<TypeId>,
    targetViewType: TypeId,
    options: Options?)
}
