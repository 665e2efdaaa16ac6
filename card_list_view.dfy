/**
 * `CardListView.ViewModel`: the list search state over `CardListItem`s, searched by name, fed by
 * `DataManager.getCardItems`.
 */
module CardListView {
  import opened Wrappers
  import opened Urls
  import opened Constants
  import opened ListSearch
  import opened CardListItemModel
  import opened DataManagement
  import CardCellView

  function ItemName(item: CardListItem): string { item.name }

  /** A fresh view model: nothing loaded, no search. */
  method NewViewModel(matches: (string, string) -> bool) returns (vm: SearchList<CardListItem>)
    ensures fresh(vm) && vm.Valid()
    ensures vm.nameOf == ItemName && vm.matches == matches
    ensures vm.allItems == [] && vm.filteredItems == [] && !vm.isSearching && vm.Displayed() == []
  {
    vm := new SearchList(ItemName, matches);
  }

  /**
   * `getCardItems()`: the list `DataManager.getCardItems` returns replaces the full list (a
   * persisted list when there is one, else the fetched one); its error is rethrown unchanged.
   */
  method GetCardItems(vm: SearchList<CardListItem>, dm: DataManager, net: Transport<Option<Json.Value>>)
    returns (outcome: Outcome<Failure>)
    requires vm.Valid()
    modifies vm`allItems, vm`filteredItems, vm`notifications, dm`store, dm`pendingRefreshes, dm`requests
    ensures vm.Valid() && vm.isSearching == old(vm.isSearching)
    ensures old(dm.LoadCardItems()).Some? ==>
              && outcome == Pass
              && vm.allItems == old(dm.LoadCardItems()).value
              && vm.filteredItems == []
              && vm.notifications == old(vm.notifications) + 1
    ensures old(dm.LoadCardItems()).None? && FetchCardItems(net).Success? ==>
              && outcome == Pass
              && vm.allItems == FetchCardItems(net).value
              && vm.filteredItems == []
              && vm.notifications == old(vm.notifications) + 1
    ensures old(dm.LoadCardItems()).None? && FetchCardItems(net).Failure? ==>
              && outcome == Fail(FetchCardItems(net).error)
              && vm.allItems == old(vm.allItems)
              && vm.filteredItems == old(vm.filteredItems)
              && vm.notifications == old(vm.notifications)
    ensures old(dm.LoadCardItems()).Some? ==>
              && dm.store == old(dm.store)
              && dm.requests == old(dm.requests)
              && dm.pendingRefreshes == old(dm.pendingRefreshes) + 1
    ensures old(dm.LoadCardItems()).None? ==>
              && dm.requests == old(dm.requests) + ListRequests()
              && dm.pendingRefreshes == old(dm.pendingRefreshes)
              && dm.store == (if FetchCardItems(net).Success?
                              then old(dm.store)[CachedCardItemsKey := EncodeItems(FetchCardItems(net).value)]
                              else old(dm.store))
    ensures outcome.Pass? ==> dm.LoadCardItems() == Some(vm.allItems)
  {
    var items := dm.GetCardItems(net);
    outcome := vm.Refresh(items);
  }

  /** `cardCellViewModel(at:)`: a row model for the displayed record at an in-bounds `index`. */
  method CardCellViewModel(vm: SearchList<CardListItem>, index: int, parseUrl: string -> Option<Url>)
    returns (cell: CardCellView.ViewModel)
    requires 0 <= index < vm.NumberOfItems()
    ensures fresh(cell)
    ensures vm.ItemAt(index) == Some(cell.item)
    ensures cell.cardImage.None? && cell.parseUrl == parseUrl
  {
    cell := new CardCellView.ViewModel(vm.UncheckedItemAt(index), parseUrl);
  }
}
