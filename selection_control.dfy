/** The selection list (Controls/SelectionControl.cs): SelectedItem and
    SelectedView kept in sync through a re-entrancy guard, and the IsSelected
    flags of the previous and new values toggled on every change. The two
    reactive properties notify their subscribers in subscription order, only
    when the value actually changes: first the synchronisation handler, then
    the IsSelected handler. An exception thrown inside the synchronisation
    handler leaves through the property setter, after the value was stored and
    before the guard is lowered again. */
module Selection {
  import opened Types
  import opened ListControls

  /** The IsSelected handler for view models: the previous value, when
      selectable, is deselected, then the new one, when selectable, selected. */
  method ToggleItems(previous: ViewModel?, current: ViewModel?)
    modifies (set m: ViewModel | m in [previous, current])`isSelected
    ensures current != null && current.selectable ==> current.isSelected
    ensures previous != null && previous != current && previous.selectable ==> !previous.isSelected
    ensures previous != null && previous != current && !previous.selectable ==> previous.isSelected == old(previous.isSelected)
    ensures current != null && !current.selectable ==> current.isSelected == old(current.isSelected)
  {
    if previous != null && previous.selectable {
      previous.isSelected := false;
    }
    if current != null && current.selectable {
      current.isSelected := true;
    }
  }

  /** The IsSelected handler for views, as for view models. */
  method ToggleViews(previous: View?, current: View?)
    modifies (set v: View | v in [previous, current])`isSelected
    ensures current != null && current.selectable ==> current.isSelected
    ensures previous != null && previous != current && previous.selectable ==> !previous.isSelected
    ensures previous != null && previous != current && !previous.selectable ==> previous.isSelected == old(previous.isSelected)
    ensures current != null && !current.selectable ==> current.isSelected == old(current.isSelected)
  {
    if previous != null && previous.selectable {
      previous.isSelected := false;
    }
    if current != null && current.selectable {
      current.isSelected := true;
    }
  }

  class SelectionControl {
    /** The list the selection is made in (SelectionControl derives from
        ListControl). */
    const list: ListControl
    var selectedItem: ViewModel?
    var selectedView: View?
    /** `_isItemOrViewChanging`. */
    var changing: bool
    /** The previous value PairWithPrevious holds for the item IsSelected
        handler: the last item that handler received. */
    var pairedItem: ViewModel?
    /** The same for the view IsSelected handler. */
    var pairedView: View?

    constructor (l: ListControl)
      ensures list == l && selectedItem == null && selectedView == null && !changing
      ensures pairedItem == null && pairedView == null
    {
      list := l;
      selectedItem, selectedView, changing := null, null, false;
      pairedItem, pairedView := null, null;
    }

    /** The selected view is the list's view for the selected item. */
    ghost predicate Synced()
      reads this, list, (set v: View | v in list.views)`viewModel
    {
      list.GetViewForViewModel(selectedItem) == Yields(selectedView)
    }

    /** While the guard is down, each IsSelected handler has received the
        property's current value. Only a handler that throws, which leaves the
        guard up, makes the two differ. */
    ghost predicate InStep()
      reads this
    {
      !changing ==> pairedItem == selectedItem && pairedView == selectedView
    }

    /** The item IsSelected handler: toggles the pair PairWithPrevious gives,
        the item it last received and `x`, and keeps `x` as the new previous. */
    method ItemSelectionUpdate(x: ViewModel?)
      modifies this`pairedItem, (set m: ViewModel | m in [pairedItem, x])`isSelected
      ensures pairedItem == x
      ensures x != null && x.selectable ==> x.isSelected
      ensures old(pairedItem) != null && old(pairedItem) != x && old(pairedItem).selectable ==> !old(pairedItem).isSelected
    {
      ToggleItems(pairedItem, x);
      pairedItem := x;
    }

    /** The view IsSelected handler, as for items. */
    method ViewSelectionUpdate(x: View?)
      modifies this`pairedView, (set v: View | v in [pairedView, x])`isSelected
      ensures pairedView == x
      ensures x != null && x.selectable ==> x.isSelected
      ensures old(pairedView) != null && old(pairedView) != x && old(pairedView).selectable ==> !old(pairedView).isSelected
    {
      ToggleViews(pairedView, x);
      pairedView := x;
    }

    /** Setting SelectedItem. Unless the guard is up, the synchronisation
        handler raises it, sets SelectedView to the list's view for the item
        (whose own synchronisation handler then does nothing, while its
        IsSelected handler toggles the views), and lowers it. Then the item
        IsSelected handler toggles the item it last received and the new one.
        A lookup that throws stops everything after it and leaves the guard
        up. */
    method SetSelectedItem(x: ViewModel?) returns (o: Outcome)
      modifies this, (set m: ViewModel | m in [pairedItem, x])`isSelected
      modifies (set v: View | v == pairedView || v in list.views)`isSelected
      ensures x == old(selectedItem) ==>
        o == Done && selectedItem == old(selectedItem) && selectedView == old(selectedView) && changing == old(changing) &&
        pairedItem == old(pairedItem) && pairedView == old(pairedView)
      ensures x != old(selectedItem) ==> selectedItem == x
      ensures x != old(selectedItem) && old(changing) ==>
        o == Done && changing && selectedView == old(selectedView) && pairedView == old(pairedView)
      ensures x != old(selectedItem) && !old(changing) ==>
        var found := old(list.GetViewForViewModel(x));
        (found.Raises? ==> o == Threw(found.error) && changing && selectedView == old(selectedView) &&
                           pairedItem == old(pairedItem) && pairedView == old(pairedView)) &&
        (found.Yields? ==> o == Done && !changing && selectedView == found.view)
      ensures o == Done && x != old(selectedItem) ==>
        pairedItem == x &&
        (x != null && x.selectable ==> x.isSelected) &&
        (old(pairedItem) != null && old(pairedItem) != x && old(pairedItem).selectable ==> !old(pairedItem).isSelected)
      ensures o == Done && selectedView != old(selectedView) ==>
        pairedView == selectedView &&
        (selectedView != null && selectedView.selectable ==> selectedView.isSelected) &&
        (old(pairedView) != null && old(pairedView) != selectedView && old(pairedView).selectable ==> !old(pairedView).isSelected)
      ensures selectedView == old(selectedView) ==> pairedView == old(pairedView)
      ensures o == Done && x != old(selectedItem) && !old(changing) ==> Synced()
      ensures forall v: View :: v in old(list.views) && v != selectedView && v != old(pairedView) ==>
        v.isSelected == old(v.isSelected)
      ensures old(InStep()) ==> InStep()
    {
      if x == selectedItem {
        return Done;
      }
      selectedItem := x;
      if !changing {
        o := SyncViewToItem();
        if o.Threw? {
          return;
        }
      }
      ItemSelectionUpdate(x);
      o := Done;
    }

    /** SelectedItem's synchronisation handler, run with the guard down: it
        raises the guard, looks the item up and, when the lookup returns,
        sets SelectedView to the view found, whose IsSelected handler toggles
        the view it last received and the new one, and lowers the guard. */
    method SyncViewToItem() returns (o: Outcome)
      requires !changing
      modifies this, (set v: View | v == pairedView || v in list.views)`isSelected
      ensures selectedItem == old(selectedItem) && pairedItem == old(pairedItem)
      ensures var found := old(list.GetViewForViewModel(selectedItem));
        (found.Raises? ==> o == Threw(found.error) && changing && selectedView == old(selectedView)) &&
        (found.Yields? ==> o == Done && !changing && selectedView == found.view)
      ensures selectedView == old(selectedView) ==> pairedView == old(pairedView)
      ensures o == Done && selectedView != old(selectedView) ==>
        pairedView == selectedView &&
        (selectedView != null && selectedView.selectable ==> selectedView.isSelected) &&
        (old(pairedView) != null && old(pairedView) != selectedView && old(pairedView).selectable ==> !old(pairedView).isSelected)
      ensures forall v: View :: v in old(list.views) && v != selectedView && v != old(pairedView) ==>
        v.isSelected == old(v.isSelected)
    {
      changing := true;
      var found := list.GetViewForViewModel(selectedItem);
      if found.Raises? {
        return Threw(found.error);
      }
      if found.view != selectedView {
        selectedView := found.view;
        ViewSelectionUpdate(found.view);
      }
      changing := false;
      o := Done;
    }

    /** Setting SelectedView. Unless the guard is up, the synchronisation
        handler raises it, sets SelectedItem to the view's view model (a null
        view throws there, before the view IsSelected handler runs), and
        lowers it. Then the view IsSelected handler toggles the view it last
        received and the new one. */
    method SetSelectedView(x: View?) returns (o: Outcome)
      modifies this, (set v: View | v in [x, pairedView])`isSelected
      modifies (set m: ViewModel | m in [pairedItem])`isSelected,
        (if x != null then (set m: ViewModel | m in [x.viewModel]) else {})`isSelected
      ensures x == old(selectedView) ==>
        o == Done && selectedItem == old(selectedItem) && selectedView == old(selectedView) && changing == old(changing) &&
        pairedItem == old(pairedItem) && pairedView == old(pairedView)
      ensures x != old(selectedView) ==> selectedView == x
      ensures x != old(selectedView) && old(changing) ==>
        o == Done && changing && selectedItem == old(selectedItem) && pairedItem == old(pairedItem)
      ensures x != old(selectedView) && !old(changing) && x == null ==>
        o == Threw(NullReference) && changing && selectedItem == old(selectedItem) &&
        pairedItem == old(pairedItem) && pairedView == old(pairedView)
      ensures x != old(selectedView) && !old(changing) && x != null ==>
        o == Done && !changing && selectedItem == old(x.viewModel)
      ensures o == Done && x != old(selectedView) ==>
        pairedView == x &&
        (x != null && x.selectable ==> x.isSelected) &&
        (old(pairedView) != null && old(pairedView) != x && old(pairedView).selectable ==> !old(pairedView).isSelected)
      ensures selectedItem == old(selectedItem) ==> pairedItem == old(pairedItem)
      ensures o == Done && selectedItem != old(selectedItem) ==>
        pairedItem == selectedItem &&
        (selectedItem != null && selectedItem.selectable ==> selectedItem.isSelected) &&
        (old(pairedItem) != null && old(pairedItem) != selectedItem && old(pairedItem).selectable ==> !old(pairedItem).isSelected)
      ensures old(InStep()) ==> InStep()
    {
      if x == selectedView {
        return Done;
      }
      selectedView := x;
      if !changing {
        changing := true;
        if x == null {
          return Threw(NullReference);
        }
        var item := x.viewModel;
        if item != selectedItem {
          selectedItem := item;
          ItemSelectionUpdate(item);
        }
        changing := false;
      }
      ViewSelectionUpdate(x);
      o := Done;
    }
  }
}
