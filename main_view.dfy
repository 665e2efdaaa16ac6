/**
 * `MainView.ViewModel`, the older twin of the list view model over full `Card` records. Its source
 * reads `Card.name` as a plain string although it is optional, and fetches through a
 * `DataManager.NetworkData.getCards` that does not exist; the model therefore takes the name of a
 * card as a parameter and the fetched cards (or the error thrown) as an argument.
 */
module MainView {
  import opened Wrappers
  import opened ListSearch
  import opened CardModel
  import opened DataManagement

  method NewViewModel(nameOf: Card -> string, matches: (string, string) -> bool) returns (vm: SearchList<Card>)
    ensures fresh(vm) && vm.Valid()
    ensures vm.nameOf == nameOf && vm.matches == matches
    ensures vm.allItems == [] && vm.filteredItems == [] && !vm.isSearching
  {
    vm := new SearchList(nameOf, matches);
  }

  /** `numberOfCards`: the length of `displayedCards`. */
  function NumberOfCards(vm: SearchList<Card>): (n: nat)
    reads vm
    requires vm.Valid()
    ensures n == |vm.Displayed()|
    ensures n == if vm.isSearching then |vm.filteredItems| else |vm.allItems|
  {
    vm.NumberOfItems()
  }

  /** `card(at:)`: the displayed card at `index`, or `None` outside `[0, numberOfCards)`. */
  function CardAt(vm: SearchList<Card>, index: int): (r: Option<Card>)
    reads vm
    ensures r.Some? <==> 0 <= index < |vm.Displayed()|
    ensures r.Some? ==> r.value == vm.Displayed()[index]
  {
    vm.ItemAt(index)
  }

  /** `getCards()`: replaces `allCards` and clears `filteredCards`, keeping `isSearching`; rethrows. */
  method GetCards(vm: SearchList<Card>, fetched: Result<seq<Card>, Failure>) returns (outcome: Outcome<Failure>)
    requires vm.Valid()
    modifies vm`allItems, vm`filteredItems, vm`notifications
    ensures vm.Valid() && vm.isSearching == old(vm.isSearching)
    ensures fetched.Success? ==>
              && outcome == Pass
              && vm.allItems == fetched.value && vm.filteredItems == []
              && vm.notifications == old(vm.notifications) + 1
    ensures fetched.Failure? ==>
              && outcome == Fail(fetched.error)
              && vm.allItems == old(vm.allItems) && vm.filteredItems == old(vm.filteredItems)
              && vm.notifications == old(vm.notifications)
  {
    outcome := vm.Refresh(fetched);
  }

  /** `searchCards(with:)`: filters `allCards` by name for a non-empty query, in list order. */
  method SearchCards(vm: SearchList<Card>, query: string)
    requires vm.Valid()
    modifies vm`filteredItems, vm`isSearching, vm`notifications
    ensures vm.Valid()
    ensures vm.allItems == old(vm.allItems)
    ensures vm.isSearching == (query != "")
    ensures vm.filteredItems == if query == "" then [] else Filter(vm.allItems, vm.MatchesQuery(query))
    ensures vm.notifications == old(vm.notifications) + 1
    ensures query == "" ==> vm.Displayed() == vm.allItems
  {
    vm.Search(query);
  }
}
