/**
 * The list search state shared by `CardListView.ViewModel` and its older twin `MainView.ViewModel`:
 * the full list, the filtered list and whether a search is active, with the displayed list derived
 * from the three. Record names and the locale-aware, case-insensitive containment test
 * (`localizedCaseInsensitiveContains`) are parameters of the state.
 */
module ListSearch {
  import opened Wrappers
  import opened DataManagement

  /** `xs.filter(keep)`. */
  function Filter<T>(xs: seq<T>, keep: T -> bool): (r: seq<T>)
    ensures |r| <= |xs|
    ensures forall i :: 0 <= i < |r| ==> keep(r[i])
    decreases |xs|
  {
    if xs == [] then []
    else
      var rest := Filter(xs[1..], keep);
      if keep(xs[0]) then
        assert forall i :: 1 <= i < |rest| + 1 ==> ([xs[0]] + rest)[i] == rest[i - 1];
        [xs[0]] + rest
      else rest
  }

  /** `a` is `b` with some elements left out, in the same order. */
  predicate IsSubsequence<T(==)>(a: seq<T>, b: seq<T>)
    decreases |b|
  {
    a == [] || (b != [] && ((a[0] == b[0] && IsSubsequence(a[1..], b[1..])) || IsSubsequence(a, b[1..])))
  }

  lemma {:induction false} FilterIsSubsequence<T>(xs: seq<T>, keep: T -> bool)
    ensures IsSubsequence(Filter(xs, keep), xs)
    decreases |xs|
  {
    if xs != [] {
      FilterIsSubsequence(xs[1..], keep);
      var rest := Filter(xs[1..], keep);
      if keep(xs[0]) {
        assert Filter(xs, keep) == [xs[0]] + rest;
        assert ([xs[0]] + rest)[1..] == rest;
      } else {
        assert Filter(xs, keep) == rest;
      }
    }
  }

  /** The filter keeps every copy of each element that passes and no copy of any other. */
  lemma {:induction false} FilterCount<T>(xs: seq<T>, keep: T -> bool, x: T)
    ensures multiset(Filter(xs, keep))[x] == if keep(x) then multiset(xs)[x] else 0
    decreases |xs|
  {
    if xs != [] {
      FilterCount(xs[1..], keep, x);
      assert xs == [xs[0]] + xs[1..];
      assert multiset(xs) == multiset([xs[0]]) + multiset(xs[1..]);
    }
  }

  lemma FilterMembership<T>(xs: seq<T>, keep: T -> bool, x: T)
    ensures x in Filter(xs, keep) <==> x in xs && keep(x)
  {
    FilterCount(xs, keep, x);
    assert (x in Filter(xs, keep)) <==> multiset(Filter(xs, keep))[x] > 0;
    assert (x in xs) <==> multiset(xs)[x] > 0;
  }

  /** A query that matches nothing filters everything out. */
  lemma {:induction false} FilterNoneKept<T>(xs: seq<T>, keep: T -> bool)
    requires forall i :: 0 <= i < |xs| ==> !keep(xs[i])
    ensures Filter(xs, keep) == []
    decreases |xs|
  {
    if xs != [] {
      assert forall i :: 0 <= i < |xs[1..]| ==> xs[1..][i] == xs[i + 1];
      FilterNoneKept(xs[1..], keep);
    }
  }

  /** A query that matches everything keeps the list as it is. */
  lemma {:induction false} FilterAllKept<T>(xs: seq<T>, keep: T -> bool)
    requires forall i :: 0 <= i < |xs| ==> keep(xs[i])
    ensures Filter(xs, keep) == xs
    decreases |xs|
  {
    if xs != [] {
      assert forall i :: 0 <= i < |xs[1..]| ==> xs[1..][i] == xs[i + 1];
      FilterAllKept(xs[1..], keep);
      assert xs == [xs[0]] + xs[1..];
    }
  }

  class SearchList<T(==)> {
    /** The name each record is searched by. */
    const nameOf: T -> string
    /** `name.localizedCaseInsensitiveContains(query)`. */
    const matches: (string, string) -> bool

    var allItems: seq<T>
    var filteredItems: seq<T>
    var isSearching: bool
    /** How many times `onDataUpdated` has fired. */
    var notifications: nat

    /** No filter result without an active search, and every filter result is drawn from `allItems`. */
    ghost predicate Valid()
      reads this
    {
      (!isSearching ==> filteredItems == []) && IsSubsequence(filteredItems, allItems)
    }

    constructor (nameOf: T -> string, matches: (string, string) -> bool)
      ensures Valid()
      ensures this.nameOf == nameOf && this.matches == matches
      ensures allItems == [] && filteredItems == [] && !isSearching && notifications == 0
    {
      this.nameOf := nameOf;
      this.matches := matches;
      allItems := [];
      filteredItems := [];
      isSearching := false;
      notifications := 0;
    }

    /** The per-record test a search for `query` applies. */
    function MatchesQuery(query: string): T -> bool {
      item => matches(nameOf(item), query)
    }

    /**
     * `displayedItems`: the full list unless a search is active or has results. With the invariant
     * this is the filter result exactly when a search is active, even when that result is empty.
     */
    function Displayed(): (r: seq<T>)
      reads this
      ensures Valid() ==> r == if isSearching then filteredItems else allItems
      ensures Valid() ==> IsSubsequence(r, allItems) || r == allItems
    {
      if filteredItems == [] && !isSearching then allItems else filteredItems
    }

    /** `numberOfItems`. */
    function NumberOfItems(): (n: nat)
      reads this
      ensures Valid() ==> n == if isSearching then |filteredItems| else |allItems|
    {
      |Displayed()|
    }

    /** `cardItem(at:)`: the displayed record at `index`, or `None` out of bounds. */
    function ItemAt(index: int): (r: Option<T>)
      reads this
      ensures r.Some? <==> 0 <= index < NumberOfItems()
      ensures r.Some? ==> r.value == Displayed()[index]
    {
      if index >= 0 && index < NumberOfItems() then Some(Displayed()[index]) else None
    }

    /** The unchecked read behind `cardCellViewModel(at:)`: the caller must stay within bounds. */
    function UncheckedItemAt(index: int): (r: T)
      reads this
      requires 0 <= index < NumberOfItems()
      ensures ItemAt(index) == Some(r)
    {
      Displayed()[index]
    }

    /**
     * The refresh (`getCardItems` / `getCards`) given what the data source returned or threw. A
     * result replaces `allItems` and clears `filteredItems` but keeps `isSearching`, then notifies;
     * an error is rethrown with nothing changed.
     */
    method Refresh(fetched: Result<seq<T>, Failure>) returns (outcome: Outcome<Failure>)
      requires Valid()
      modifies this`allItems, this`filteredItems, this`notifications
      ensures Valid()
      ensures isSearching == old(isSearching)
      ensures fetched.Success? ==>
                && outcome == Pass
                && allItems == fetched.value
                && filteredItems == []
                && notifications == old(notifications) + 1
      ensures fetched.Failure? ==>
                && outcome == Fail(fetched.error)
                && allItems == old(allItems)
                && filteredItems == old(filteredItems)
                && notifications == old(notifications)
      ensures fetched.Success? && isSearching ==> Displayed() == []
      ensures fetched.Success? && !isSearching ==> Displayed() == fetched.value
    {
      if fetched.Failure? {
        return Fail(fetched.error);
      }
      allItems := fetched.value;
      filteredItems := [];
      notifications := notifications + 1;
      outcome := Pass;
    }

    /**
     * `searchItems(with:)` / `searchCards(with:)`: an empty query ends the search; any other query
     * starts one whose result is the records whose names match, in list order. Notifies once.
     */
    method Search(query: string)
      requires Valid()
      modifies this`filteredItems, this`isSearching, this`notifications
      ensures Valid()
      ensures allItems == old(allItems)
      ensures isSearching == (query != "")
      ensures filteredItems == if query == "" then [] else Filter(allItems, MatchesQuery(query))
      ensures notifications == old(notifications) + 1
      ensures query == "" ==> Displayed() == allItems
      ensures query != "" ==> Displayed() == Filter(allItems, MatchesQuery(query))
      ensures query != "" && (forall i :: 0 <= i < |allItems| ==> !matches(nameOf(allItems[i]), query)) ==>
                Displayed() == []
    {
      isSearching := query != "";
      filteredItems := if query == "" then [] else Filter(allItems, MatchesQuery(query));
      notifications := notifications + 1;
      if query != "" {
        FilterIsSubsequence(allItems, MatchesQuery(query));
        if forall i :: 0 <= i < |allItems| ==> !matches(nameOf(allItems[i]), query) {
          FilterNoneKept(allItems, MatchesQuery(query));
        }
      }
    }
  }
}
