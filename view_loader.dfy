/** View loading (ViewLoader.cs): dispatch on the kind of input, resolution of
    the mapping, instantiation of the prefab with cancellation checks, lookup of
    the view component and binding of the view model. Asset acquisition, the
    engine's Object.Instantiate and dependency injection are outside the model:
    their results are parameters. */
module ViewLoading {
  import opened Types
  import opened ViewResolution

  /** What the observable returned by Load does, or the exception Load throws
      before returning an observable. */
  datatype LoadResult =
    | Emits(view: View?)
    | CompletesEmpty
    | Errors(error: Exception)
    | Throws(error: Exception)

  /** The way Load handles an input. */
  datatype Route =
    | ReturnNull
    | ReturnView(view: View)
    | Reject(error: Exception)
    | Unmapped(error: Exception)
    | LoadMapping(mapping: ViewMapping, viewModel: ViewModel?)

  /** What the external asset loader produced for a mapping's locator. */
  datatype AssetResult = AssetLoaded(prefab: GameObject) | AssetFailed(error: Exception)

  /** The first component whose type is, or derives from, the given type
      (GameObject.GetComponent(Type)). */
  function FindComponent(components: seq<View>, t: TypeId): (r: Option<View>)
    ensures r.None? <==> forall v :: v in components ==> t !in v.viewType.SelfAndAncestors()
    ensures r.Some? ==> exists k :: 0 <= k < |components| && components[k] == r.value &&
                                    t in r.value.viewType.SelfAndAncestors() &&
                                    forall j :: 0 <= j < k ==> t !in components[j].viewType.SelfAndAncestors()
  {
    if components == [] then None
    else if t in components[0].viewType.SelfAndAncestors() then Some(components[0])
    else
      var r := FindComponent(components[1..], t);
      if r.Some? then
        var k :| 0 <= k < |components[1..]| && components[1..][k] == r.value &&
                 t in r.value.viewType.SelfAndAncestors() &&
                 forall j :: 0 <= j < k ==> t !in components[1..][j].viewType.SelfAndAncestors();
        assert components[k + 1] == r.value;
        r
      else
        assert forall v :: v in components ==> v == components[0] || v in components[1..];
        r
  }

  class ViewLoader {
    const resolver: ViewResolver

    constructor (r: ViewResolver)
      ensures resolver == r
    {
      resolver := r;
    }

    /** The branch Load takes: a null input gives a null view, a view is passed
        through, a type that does not implement IView is refused, an unmapped
        view type or view-model type throws, and otherwise the resolved mapping is
        loaded with no view model (view-type input) or with the input as view
        model. */
    function Dispatch(input: Input, options: Options?): (r: Route)
      reads this, resolver, options
      ensures input.NullInput? <==> r == ReturnNull
      ensures input.ViewInput? <==> r.ReturnView?
      ensures r.ReturnView? ==> r.view == input.view
      ensures r.Reject? <==> input.TypeInput? && !input.clrType.implementsView
      ensures r.Reject? ==> r.error.NotSupported?
      ensures r.Unmapped? ==> r.error.InvalidOperation?
      ensures input.TypeInput? && input.clrType.implementsView ==>
        match resolver.ResolveFromViewType(input.clrType.id, options)
        case None => r.Unmapped?
        case Some(m) => r == LoadMapping(m, null)
      ensures input.ModelInput? ==>
        match resolver.ResolveFromViewModelType(input.model.typeId, options)
        case None => r.Unmapped?
        case Some(m) => r == LoadMapping(m, input.model)
    {
      match input
      case NullInput => ReturnNull
      case ViewInput(v) => ReturnView(v)
      case TypeInput(t) =>
        if !t.implementsView then Reject(NotSupported("#Views# Input type does not implement IView: " + t.id))
        else LoadByViewType(t.id, options)
      case ModelInput(vm) => LoadByViewModel(vm, options)
    }

    /** LoadByViewType: the view type's resolved mapping, loaded without a
        view model; an unresolved view type is an InvalidOperationException. */
    function LoadByViewType(viewType: TypeId, options: Options?): (r: Route)
      reads this, resolver, options
      ensures r.Unmapped? || r.LoadMapping?
      ensures r.Unmapped? <==> resolver.ResolveFromViewType(viewType, options).None?
      ensures r.Unmapped? ==> r.error.InvalidOperation?
      ensures r.LoadMapping? ==> Some(r.mapping) == resolver.ResolveFromViewType(viewType, options) && r.viewModel == null
    {
      match resolver.ResolveFromViewType(viewType, options)
      case None => Unmapped(InvalidOperation("View type " + viewType + " not mapped"))
      case Some(m) => LoadMapping(m, null)
    }

    /** LoadByViewModel: the mapping resolved for the view model's type, loaded
        with the view model; an unresolved type is an InvalidOperationException. */
    function LoadByViewModel(viewModel: ViewModel, options: Options?): (r: Route)
      reads this, resolver, options
      ensures r.Unmapped? || r.LoadMapping?
      ensures r.Unmapped? <==> resolver.ResolveFromViewModelType(viewModel.typeId, options).None?
      ensures r.Unmapped? ==> r.error.InvalidOperation?
      ensures r.LoadMapping? ==>
        Some(r.mapping) == resolver.ResolveFromViewModelType(viewModel.typeId, options) && r.viewModel == viewModel
    {
      match resolver.ResolveFromViewModelType(viewModel.typeId, options)
      case None => Unmapped(InvalidOperation("ViewModel type " + viewModel.typeId + " not mapped to any valid view"))
      case Some(m) => LoadMapping(m, viewModel)
    }

    /** Load: follows Dispatch, and for a resolved mapping runs LoadInternal
        with the asset loader's outcome and the engine's instance. */
    method Load(input: Input, token: CancellationToken, options: Options?,
                asset: AssetResult, instance: GameObject, cancelledWhileInstantiating: bool)
      returns (result: LoadResult)
      modifies token, instance, set v | v in instance.components
      modifies if asset.AssetLoaded? then set v | v in asset.prefab.components else {}
      ensures input.NullInput? ==> result == Emits(null)
      ensures input.ViewInput? ==> result == Emits(input.view)
      ensures old(Dispatch(input, options)).Reject? ==> result == Errors(old(Dispatch(input, options)).error)
      ensures old(Dispatch(input, options)).Unmapped? ==> result == Throws(old(Dispatch(input, options)).error)
      ensures !old(Dispatch(input, options)).LoadMapping? ==>
        unchanged(token, instance) && unchanged(set v | v in instance.components) &&
        (asset.AssetLoaded? ==> unchanged(set v | v in asset.prefab.components))
      ensures var route := old(Dispatch(input, options));
        route.LoadMapping? && asset.AssetFailed? ==> result == Errors(asset.error) && unchanged(token, instance)
      ensures var route := old(Dispatch(input, options));
        route.LoadMapping? && asset.AssetLoaded? && old(token.isCancellationRequested) ==>
          result == CompletesEmpty && unchanged(token, instance)
      ensures var route := old(Dispatch(input, options));
        route.LoadMapping? && asset.AssetLoaded? && !old(token.isCancellationRequested) && cancelledWhileInstantiating ==>
          result == CompletesEmpty && instance.destroyed && token.isCancellationRequested
      ensures var route := old(Dispatch(input, options));
        route.LoadMapping? && asset.AssetLoaded? && !old(token.isCancellationRequested) && !cancelledWhileInstantiating ==>
          instance.destroyed == old(instance.destroyed) &&
          match FindComponent(instance.components, route.mapping.viewType.id)
          case None => result.Errors? && result.error.InvalidOperation?
          case Some(v) => result == Emits(v) && v.viewModel == route.viewModel
      ensures result.Emits? && old(Dispatch(input, options)).LoadMapping? ==>
        result.view != null && result.view in instance.components &&
        result.view.viewModel == old(Dispatch(input, options)).viewModel
    {
      result := LoadRoute(Dispatch(input, options), token, asset, instance, cancelledWhileInstantiating);
    }

    /** What Load does once the route is known. */
    method LoadRoute(route: Route, token: CancellationToken, asset: AssetResult, instance: GameObject,
                     cancelledWhileInstantiating: bool)
      returns (result: LoadResult)
      modifies token, instance, set v | v in instance.components
      modifies if asset.AssetLoaded? then set v | v in asset.prefab.components else {}
      ensures route == ReturnNull ==> result == Emits(null)
      ensures route.ReturnView? ==> result == Emits(route.view)
      ensures route.Reject? ==> result == Errors(route.error)
      ensures route.Unmapped? ==> result == Throws(route.error)
      ensures !route.LoadMapping? ==>
        unchanged(token, instance) && unchanged(set v | v in instance.components) &&
        (asset.AssetLoaded? ==> unchanged(set v | v in asset.prefab.components))
      ensures route.LoadMapping? && asset.AssetFailed? ==> result == Errors(asset.error) && unchanged(token, instance)
      ensures route.LoadMapping? && asset.AssetLoaded? && old(token.isCancellationRequested) ==>
        result == CompletesEmpty && unchanged(token, instance)
      ensures route.LoadMapping? && asset.AssetLoaded? && !old(token.isCancellationRequested) && cancelledWhileInstantiating ==>
        result == CompletesEmpty && instance.destroyed && token.isCancellationRequested
      ensures route.LoadMapping? && asset.AssetLoaded? && !old(token.isCancellationRequested) && !cancelledWhileInstantiating ==>
        instance.destroyed == old(instance.destroyed) &&
        match FindComponent(instance.components, route.mapping.viewType.id)
        case None => result.Errors? && result.error.InvalidOperation?
        case Some(v) => result == Emits(v) && v.viewModel == route.viewModel
      ensures result.Emits? && route.LoadMapping? ==>
        result.view != null && result.view in instance.components && result.view.viewModel == route.viewModel
    {
      match route
      case ReturnNull => result := Emits(null);
      case ReturnView(v) => result := Emits(v);
      case Reject(e) => result := Errors(e);
      case Unmapped(e) => result := Throws(e);
      case LoadMapping(m, vm) =>
        result := LoadInternal(m, vm, token, asset, instance, cancelledWhileInstantiating);
    }

    /** LoadInternal: an asset failure is an error; a cancellation seen once the
        asset is there, or after instantiation, completes without a view; a
        prefab without a component of the mapped view type is an
        InvalidOperationException; otherwise the view gets the view model and is
        emitted. */
    method LoadInternal(mapping: ViewMapping, viewModel: ViewModel?, token: CancellationToken,
                        asset: AssetResult, instance: GameObject, cancelledWhileInstantiating: bool)
      returns (result: LoadResult)
      modifies token, instance, set v | v in instance.components
      modifies if asset.AssetLoaded? then set v | v in asset.prefab.components else {}
      ensures asset.AssetFailed? ==> result == Errors(asset.error) && unchanged(token, instance)
      ensures asset.AssetLoaded? && old(token.isCancellationRequested) ==>
        result == CompletesEmpty && unchanged(token, instance) &&
        unchanged(set v | v in asset.prefab.components)
      ensures asset.AssetLoaded? && !old(token.isCancellationRequested) && cancelledWhileInstantiating ==>
        result == CompletesEmpty && instance.destroyed && token.isCancellationRequested
      ensures asset.AssetLoaded? && !old(token.isCancellationRequested) && !cancelledWhileInstantiating ==>
        !instance.destroyed == old(!instance.destroyed) &&
        match FindComponent(instance.components, mapping.viewType.id)
        case None => result.Errors? && result.error.InvalidOperation?
        case Some(v) => result == Emits(v) && v.viewModel == viewModel
      ensures result.Emits? ==> result.view != null && result.view in instance.components &&
                                result.view.viewModel == viewModel
      ensures result.Emits? ==> forall v :: v in asset.prefab.components ==> !v.isActive
    {
      match asset
      case AssetFailed(e) =>
        result := Errors(e);
      case AssetLoaded(prefab) =>
        if token.isCancellationRequested {
          return CompletesEmpty;
        }
        var obj := Instantiate(prefab, token, instance, cancelledWhileInstantiating);
        if obj == null {
          return CompletesEmpty;
        }
        var found := GetViewFromPrefab(obj, mapping.viewType.id);
        match found
        case NoViewComponent(e) => result := Errors(e);
        case FoundView(view) =>
          InjectView(view, viewModel);
          result := Emits(view);
    }

    /** Instantiate: nothing is created when cancellation was already requested;
        otherwise the views of the original are disabled, the instance is taken,
        and an instance whose creation saw a cancellation is destroyed. */
    method Instantiate(original: GameObject, token: CancellationToken, instance: GameObject,
                       cancelledWhileInstantiating: bool)
      returns (r: GameObject?)
      modifies token, instance, set v | v in original.components
      ensures old(token.isCancellationRequested) ==>
        r == null && unchanged(token, instance) && unchanged(set v | v in original.components)
      ensures !old(token.isCancellationRequested) ==>
        (forall v :: v in original.components ==> !v.isActive) &&
        token.isCancellationRequested == cancelledWhileInstantiating
      ensures !old(token.isCancellationRequested) && cancelledWhileInstantiating ==>
        r == null && instance.destroyed
      ensures !old(token.isCancellationRequested) && !cancelledWhileInstantiating ==>
        r == instance && instance.destroyed == old(instance.destroyed)
      ensures forall v :: v in original.components ==>
        v.viewModel == old(v.viewModel) && v.destroyed == old(v.destroyed)
    {
      if token.isCancellationRequested {
        return null;
      }
      DisableAllViews(original);
      // Object.Instantiate(original) yields `instance`; engine callbacks run
      // during instantiation may request cancellation.
      token.isCancellationRequested := cancelledWhileInstantiating;
      if token.isCancellationRequested {
        instance.destroyed := true;
        return null;
      }
      r := instance;
    }

    /** DisableAllViews: sets IsActive to false on every view component. */
    method DisableAllViews(obj: GameObject)
      modifies set v | v in obj.components
      ensures forall v :: v in obj.components ==> !v.isActive
      ensures forall v :: v in obj.components ==>
        v.viewModel == old(v.viewModel) && v.isSelected == old(v.isSelected) &&
        v.destroyed == old(v.destroyed) && v.disposeCount == old(v.disposeCount)
    {
      var i := 0;
      while i < |obj.components|
        invariant 0 <= i <= |obj.components|
        invariant forall j :: 0 <= j < i ==> !obj.components[j].isActive
        invariant forall v :: v in obj.components ==>
          v.viewModel == old(v.viewModel) && v.isSelected == old(v.isSelected) &&
          v.destroyed == old(v.destroyed) && v.disposeCount == old(v.disposeCount)
      {
        obj.components[i].isActive := false;
        i := i + 1;
      }
    }

    method GetViewFromPrefab(obj: GameObject, viewType: TypeId) returns (r: ViewLookup)
      ensures FindComponent(obj.components, viewType).None? <==> r.NoViewComponent?
      ensures r.NoViewComponent? ==> r.error.InvalidOperation?
      ensures r.FoundView? ==> Some(r.view) == FindComponent(obj.components, viewType)
    {
      match FindComponent(obj.components, viewType)
      case None =>
        r := NoViewComponent(InvalidOperation("Loaded prefab " + obj.name + " has no view component of type " + viewType));
      case Some(v) =>
        r := FoundView(v);
    }

    /** InjectView: binds the view model; the injection of dependencies into the
        view's GameObject is external. */
    method InjectView(view: View, viewModel: ViewModel?)
      modifies view
      ensures view.viewModel == viewModel
      ensures view.isActive == old(view.isActive) && view.isSelected == old(view.isSelected)
      ensures view.destroyed == old(view.destroyed) && view.disposeCount == old(view.disposeCount)
    {
      view.viewModel := viewModel;
    }
  }

  /** The view component GetViewFromPrefab found, or the exception it raises. */
  datatype ViewLookup = FoundView(view: View) | NoViewComponent(error: Exception)
}
