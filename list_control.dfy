/** The list presenter (Controls/ListControl.cs): lookups over its view list by
    view model, by view and by index, and Present, which empties the list and
    then appends the view loaded for each item, republishing the list after
    every change. */
module ListControls {
  import opened Types
  import opened OptionsExtensions
  import opened ViewLoading
  import ViewResolution

  /** The value a lookup returns, or the exception it throws. */
  datatype Lookup = Yields(view: View?) | Raises(error: Exception)

  /** Every entry before index `k` is a view whose view model is not `viewModel`. */
  predicate NoMatchBefore(views: seq<View?>, viewModel: ViewModel?, k: int)
    reads (set v: View | v in views)`viewModel
  {
    forall j :: 0 <= j < k && j < |views| ==> views[j] != null && views[j].viewModel != viewModel
  }

  /** FirstOrDefault over the entries from `k` on, with the predicate reading
      each entry's view model: a null entry reached before a match throws. */
  function ScanFrom(views: seq<View?>, viewModel: ViewModel?, k: nat): (r: Lookup)
    requires k <= |views| && NoMatchBefore(views, viewModel, k)
    reads (set v: View | v in views)`viewModel
    ensures r == Yields(null) <==> NoMatchBefore(views, viewModel, |views|)
    ensures r.Yields? && r.view != null ==>
      exists i :: k <= i < |views| && views[i] == r.view && r.view.viewModel == viewModel && NoMatchBefore(views, viewModel, i)
    ensures r.Raises? ==>
      r.error == NullReference && exists i :: k <= i < |views| && views[i] == null && NoMatchBefore(views, viewModel, i)
    decreases |views| - k
  {
    if k == |views| then Yields(null)
    else if views[k] == null then Raises(NullReference)
    else if views[k].viewModel == viewModel then Yields(views[k])
    else ScanFrom(views, viewModel, k + 1)
  }

  /** What the loading of one item contributes: an emitted view, nothing, or
      the error that ends the whole load. */
  predicate ItemFails(r: LoadResult)
  {
    r.Errors? || r.Throws?
  }

  /** The views loaded so far and the error that stopped the load, if any. */
  datatype Batch = Batch(views: seq<View?>, failure: Option<Exception>)

  /** LoadViews over a sequence of items, each item loaded with the merged
      variants once the previous one has completed: emitted views are
      appended in item order, and the first failing item ends the load. */
  function LoadItems(items: seq<Input>, variants: seq<string>, load: ((Input, seq<string>)) -> LoadResult): (b: Batch)
    ensures |b.views| <= |items|
    decreases |items|
  {
    if items == [] then Batch([], None)
    else
      var b := LoadItems(items[..|items| - 1], variants, load);
      if b.failure.Some? then b else Step(b, load((items[|items| - 1], variants)))
  }

  /** One more item's load on a batch that has not failed. */
  function Step(b: Batch, r: LoadResult): (next: Batch)
  {
    match r
    case Emits(v) => Batch(b.views + [v], None)
    case CompletesEmpty => b
    case Errors(e) => Batch(b.views, Some(e))
    case Throws(e) => Batch(b.views, Some(e))
  }

  /** Loading one more item: the prefix's batch, stepped by that item. */
  lemma LoadItemsExtend(items: seq<Input>, i: nat, variants: seq<string>, load: ((Input, seq<string>)) -> LoadResult)
    requires i < |items|
    ensures var b := LoadItems(items[..i], variants, load);
      LoadItems(items[..i + 1], variants, load) == if b.failure.Some? then b else Step(b, load((items[i], variants)))
  {
    assert items[..i + 1][..i] == items[..i];
  }

  /** The load completes exactly when no item fails, and otherwise reports the
      error of the first item that fails. */
  lemma {:induction false} LoadItemsFailsAtFirstFailure(items: seq<Input>, variants: seq<string>, load: ((Input, seq<string>)) -> LoadResult)
    ensures LoadItems(items, variants, load).failure.None? <==>
      forall i :: 0 <= i < |items| ==> !ItemFails(load((items[i], variants)))
    ensures LoadItems(items, variants, load).failure.Some? ==>
      exists i :: 0 <= i < |items| && ItemFails(load((items[i], variants))) &&
        LoadItems(items, variants, load).failure.value == load((items[i], variants)).error &&
        forall j :: 0 <= j < i ==> !ItemFails(load((items[j], variants)))
    decreases |items|
  {
    if items != [] {
      var n := |items| - 1;
      var front := items[..n];
      LoadItemsFailsAtFirstFailure(front, variants, load);
      assert forall j :: 0 <= j < n ==> front[j] == items[j];
    }
  }

  /** When every item emits a view, the list holds those views, one per item,
      in item order. */
  lemma {:induction false} EveryItemEmitsInOrder(items: seq<Input>, variants: seq<string>, load: ((Input, seq<string>)) -> LoadResult)
    requires forall i :: 0 <= i < |items| ==> load((items[i], variants)).Emits?
    ensures var b := LoadItems(items, variants, load);
      b.failure.None? && |b.views| == |items| &&
      forall i :: 0 <= i < |items| ==> b.views[i] == load((items[i], variants)).view
    decreases |items|
  {
    if items != [] {
      var n := |items| - 1;
      var front := items[..n];
      assert forall j :: 0 <= j < n ==> front[j] == items[j];
      EveryItemEmitsInOrder(front, variants, load);
    }
  }

  /** Once a prefix of the items has failed, the items after it change nothing. */
  lemma {:induction false} FailedPrefixDecides(items: seq<Input>, k: nat, variants: seq<string>, load: ((Input, seq<string>)) -> LoadResult)
    requires k <= |items| && LoadItems(items[..k], variants, load).failure.Some?
    ensures LoadItems(items, variants, load) == LoadItems(items[..k], variants, load)
    decreases |items| - k
  {
    if k < |items| {
      var next := items[..k + 1];
      assert next[..k] == items[..k];
      FailedPrefixDecides(items, k + 1, variants, load);
    } else {
      assert items[..k] == items;
    }
  }

  /** Present's argument after the type test: an enumerable value gives its
      items, any other value becomes a one-element array. */
  datatype ListInput = Single(item: Input) | Many(items: seq<Input>)

  /** The `is IEnumerable` test on Present's argument. `enumerate` tells which
      non-null values are enumerable and what they enumerate; `null is T` is
      false, so a null argument is never one. */
  function Classify(input: Input, enumerate: Input -> Option<seq<Input>>): (r: ListInput)
    ensures r.Many? <==> input != NullInput && enumerate(input).Some?
    ensures r.Many? ==> r.items == enumerate(input).value
    ensures r.Single? ==> r.item == input
  {
    if input != NullInput && enumerate(input).Some? then Many(enumerate(input).value)
    else Single(input)
  }

  /** The items Present loads. */
  function Wrap(input: ListInput): (items: seq<Input>)
  {
    match input
    case Single(x) => [x]
    case Many(xs) => xs
  }

  /** A null argument becomes one null item, whatever the enumerable values
      are, so it is loaded like any other item; a non-enumerable value is
      loaded alone, and an enumerable one item by item. */
  lemma NullInputIsOneItem(enumerate: Input -> Option<seq<Input>>)
    ensures Wrap(Classify(NullInput, enumerate)) == [NullInput]
    ensures forall x :: enumerate(x).None? ==> Wrap(Classify(x, enumerate)) == [x]
    ensures forall x :: x != NullInput && enumerate(x).Some? ==> Wrap(Classify(x, enumerate)) == enumerate(x).value
  {
  }

  /** The successive values of a list that grows one view at a time. */
  function Snapshots(views: seq<View?>): (r: seq<seq<View?>>)
    ensures |r| == |views|
    ensures forall i :: 0 <= i < |r| ==> r[i] == views[..i + 1]
    decreases |views|
  {
    if views == [] then []
    else
      var front := views[..|views| - 1];
      Snapshots(front) + [views]
  }

  lemma SnapshotsExtend(views: seq<View?>, v: View?)
    ensures Snapshots(views + [v]) == Snapshots(views) + [views + [v]]
  {
    assert (views + [v])[..|views|] == views;
  }

  class ListControl {
    const variants: seq<string>
    var views: seq<View?>
    /** The contents of the Views reactive property at each notification,
        oldest first. The property publishes a live wrapper of the one list,
        so these are the contents at the moment of notification. */
    var publications: seq<seq<View?>>

    constructor (vs: seq<string>)
      ensures variants == vs && views == [] && publications == [[]]
    {
      variants := vs;
      views, publications := [], [[]];
    }

    /** GetViewForViewModel: the first view whose view model is `viewModel`,
        null when there is none; a null entry met before a match throws. */
    function GetViewForViewModel(viewModel: ViewModel?): (r: Lookup)
      reads this, (set v: View | v in views)`viewModel
      ensures r == Yields(null) <==> forall j :: 0 <= j < |views| ==> views[j] != null && views[j].viewModel != viewModel
      ensures r.Yields? && r.view != null ==>
        exists i :: 0 <= i < |views| && views[i] == r.view && r.view.viewModel == viewModel &&
          forall j :: 0 <= j < i ==> views[j] != null && views[j].viewModel != viewModel
      ensures r.Raises? ==>
        r.error == NullReference &&
        exists i :: 0 <= i < |views| && views[i] == null &&
          forall j :: 0 <= j < i ==> views[j] != null && views[j].viewModel != viewModel
    {
      ScanFrom(views, viewModel, 0)
    }

    /** IndexOfView: null for a null view or one not in the list, otherwise the
        index of its first occurrence. */
    function IndexOfView(view: View?): (r: Option<nat>)
      reads this
      ensures r.Some? <==> view != null && view in views
      ensures r.Some? ==> r.value < |views| && views[r.value] == view && view !in views[..r.value]
    {
      if view == null || view !in views then None
      else Some(ViewResolution.IndexOf(views, view))
    }

    /** GetViewAtIndex: null for no index, the entry at a valid index, and the
        list indexer's exception otherwise. */
    function GetViewAtIndex(index: Option<int>): (r: Lookup)
      reads this
      ensures r.Raises? <==> index.Some? && !(0 <= index.value < |views|)
      ensures r.Raises? ==> r.error == ArgumentOutOfRange
      ensures r.Yields? && index.Some? ==> r.view == views[index.value]
      ensures index.None? ==> r == Yields(null)
    {
      if index.None? then Yields(null)
      else if 0 <= index.value < |views| then Yields(views[index.value])
      else Raises(ArgumentOutOfRange)
    }

    /** Present: empties and republishes the list, merges the control's
        variants into the caller's options object itself, then loads the
        wrapped items. */
    method Present(input: Input, enumerate: Input -> Option<seq<Input>>, options: Options?,
                   load: ((Input, seq<string>)) -> LoadResult)
      returns (failure: Option<Exception>)
      modifies this, options
      ensures var b := LoadItems(Wrap(Classify(input, enumerate)), old(GetVariants(options)) + variants, load);
        views == b.views && failure == b.failure &&
        publications == old(publications) + [[]] + Snapshots(views)
      ensures options != null ==>
        options.variants == old(options.variants) + variants &&
        options.direction == old(options.direction) && options.pushMode == old(options.pushMode) &&
        options.transition == old(options.transition) && options.duration == old(options.duration)
    {
      views := [];
      publications := publications + [views];
      var merged := WithExtraVariants(options, variants);
      var vs := GetVariants(merged);
      assert vs == old(GetVariants(options)) + variants;
      failure := LoadViews(Wrap(Classify(input, enumerate)), vs, load);
    }

    /** The Do callback: the view is appended and the list republished. */
    method Append(v: View?)
      modifies this
      ensures views == old(views) + [v] && publications == old(publications) + [views]
    {
      views := views + [v];
      publications := publications + [views];
    }

    /** LoadViews with the Do callback: appends and republishes each view
        loaded for the items, stopping at the first failure. */
    method LoadViews(items: seq<Input>, vs: seq<string>, load: ((Input, seq<string>)) -> LoadResult)
      returns (failure: Option<Exception>)
      modifies this
      requires views == []
      ensures var b := LoadItems(items, vs, load);
        views == b.views && failure == b.failure && publications == old(publications) + Snapshots(views)
    {
      var i := 0;
      failure := None;
      while i < |items| && failure.None?
        invariant 0 <= i <= |items|
        invariant LoadItems(items[..i], vs, load) == Batch(views, failure)
        invariant publications == old(publications) + Snapshots(views)
        decreases |items| - i
      {
        LoadItemsExtend(items, i, vs, load);
        var r := load((items[i], vs));
        if r.Emits? {
          SnapshotsExtend(views, r.view);
          Append(r.view);
        } else if ItemFails(r) {
          failure := Some(r.error);
        }
        i := i + 1;
      }
      if failure.Some? {
        FailedPrefixDecides(items, i, vs, load);
      } else {
        assert items[..i] == items;
      }
    }
  }

  /** An index found for a view leads back to that view, and a missing or null
      view leads to null. */
  lemma IndexOfViewRoundTrip(c: ListControl, view: View?)
    ensures c.GetViewAtIndex(c.IndexOfView(view)) == Yields(if view != null && view in c.views then view else null)
  {
  }

  /** The index of an entry's first occurrence is found again from its view. */
  lemma {:induction false} FirstOccurrenceIsFoundAgain(c: ListControl, i: nat)
    requires i < |c.views| && c.views[i] != null && c.views[i] !in c.views[..i]
    ensures c.IndexOfView(c.views[i]) == Some(i)
  {
    ViewResolution.IndexOfIsFirst(c.views, c.views[i], i);
  }
}
