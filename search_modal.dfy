/**
 * The state and handlers of components/modals/search-modal.tsx: the query,
 * the result list, and a keyboard selection index that ArrowDown/ArrowUp
 * move within -1 .. len-1. Navigation (`router.push`) and `onClose` are
 * returned as an `Effect`; the fetch outcome comes in as a parameter.
 */
module Search {
  import opened Options
  import CartLines

  datatype Key = ArrowDown | ArrowUp | Enter | Escape | OtherKey(name: string)

  /** What a handler asks the page to do besides updating state. */
  datatype Effect =
    | NoEffect
    /** `router.push('/products/' + id)` then `onClose()`. */
    | OpenProduct(productId: string)
    /** `router.push('/products?search=' + query)` then `onClose()`. */
    | RunSearch(query: string)
    /** `onClose()`. */
    | Close

  const MinQueryLength: nat := 2

  /** The ArrowDown updater: one step further while a later result exists. */
  function Down(prev: int, len: nat): (next: int)
    ensures prev < len - 1 ==> next == prev + 1
    ensures prev >= len - 1 ==> next == prev
  {
    if prev < len - 1 then prev + 1 else prev
  }

  /** The ArrowUp updater: one step back, and from the first result (or before it) to -1. */
  function Up(prev: int): (next: int)
    ensures prev > 0 ==> next == prev - 1
    ensures prev <= 0 ==> next == -1
  {
    if prev > 0 then prev - 1 else -1
  }

  /** The selection range: -1 (nothing selected) up to the last result. */
  predicate InRange(i: int, len: nat) {
    -1 <= i <= len - 1
  }

  /** ArrowUp undoes ArrowDown wherever ArrowDown moved. */
  lemma UpUndoesDown(i: int, len: nat)
    requires -1 <= i < len - 1
    ensures Up(Down(i, len)) == i
  {
  }

  /** ArrowDown undoes ArrowUp from any selected result. */
  lemma DownUndoesUp(i: int, len: nat)
    requires 0 <= i <= len - 1
    ensures Down(Up(i), len) == i
  {
  }

  /** The index after one key press; Enter, Escape and other keys leave it alone. */
  function NextIndex(prev: int, key: Key, len: nat): int {
    match key
    case ArrowDown => Down(prev, len)
    case ArrowUp => Up(prev)
    case _ => prev
  }

  /** Both arrow keys keep an index inside the selection range. */
  lemma NextIndexInRange(i: int, key: Key, len: nat)
    requires InRange(i, len)
    ensures InRange(NextIndex(i, key, len), len)
  {
  }

  /** The index after a run of key presses over one result list. */
  function RunKeys(i: int, keys: seq<Key>, len: nat): int
    decreases |keys|
  {
    if keys == [] then i else RunKeys(NextIndex(i, keys[0], len), keys[1..], len)
  }

  /** From the initial -1, any run of keys keeps the index in -1 .. len-1. */
  lemma {:induction false} RunKeysInRange(i: int, keys: seq<Key>, len: nat)
    requires InRange(i, len)
    ensures InRange(RunKeys(i, keys, len), len)
    decreases |keys|
  {
    if keys != [] {
      NextIndexInRange(i, keys[0], len);
      RunKeysInRange(NextIndex(i, keys[0], len), keys[1..], len);
    }
  }

  /** Enough ArrowDown presses select the last result, and further ones stay there. */
  lemma {:induction false} DownsReachLast(i: int, n: nat, len: nat)
    requires -1 <= i && len >= 1 && i + n >= len - 1 && i <= len - 1
    ensures RunKeys(i, seq(n, _ => ArrowDown), len) == len - 1
    decreases n
  {
    var keys := seq(n, _ => ArrowDown);
    if n > 0 {
      assert keys[0] == ArrowDown;
      assert keys[1..] == seq(n - 1, _ => ArrowDown);
      if i < len - 1 {
        DownsReachLast(i + 1, n - 1, len);
      } else {
        DownsReachLast(i, n - 1, len);
      }
    }
  }

  /**
   * Enter: open the selected result when the index points at one; otherwise
   * run the full search when the query is non-empty.
   */
  function EnterEffect(index: int, results: seq<CartLines.Product>, query: string): (e: Effect)
    ensures 0 <= index < |results| ==> e == OpenProduct(results[index].id)
    ensures !(0 <= index < |results|) && query != "" ==> e == RunSearch(query)
    ensures !(0 <= index < |results|) && query == "" ==> e == NoEffect
  {
    if 0 <= index && index < |results| then OpenProduct(results[index].id)
    else if query != "" then RunSearch(query)
    else NoEffect
  }

  /** What a key press asks for; nothing at all while the modal is closed. */
  function KeyEffect(open: bool, key: Key, index: int, results: seq<CartLines.Product>, query: string): (e: Effect)
    ensures !open ==> e == NoEffect
    ensures open && key == Escape ==> e == Close
    ensures e.OpenProduct? ==> open && key == Enter && exists k :: 0 <= k < |results| && results[k].id == e.productId
    ensures e.RunSearch? ==> open && key == Enter && e.query == query && query != ""
    ensures open && key == Enter ==> e == EnterEffect(index, results, query)
    ensures open && key != Enter && key != Escape ==> e == NoEffect
  {
    if !open then NoEffect
    else match key
      case Enter => EnterEffect(index, results, query)
      case Escape => Close
      case _ => NoEffect
  }

  /** `handleSearch()`: navigate and close only for a non-empty query. */
  function SearchEffect(query: string): (e: Effect)
    ensures e == NoEffect <==> query == ""
    ensures e != NoEffect ==> e == RunSearch(query)
  {
    if query != "" then RunSearch(query) else NoEffect
  }

  /**
   * The results `performSearch` leaves for a debounced query: cleared for a
   * query shorter than two characters, otherwise the fetched products, or
   * none when the fetch failed (`fetched == None`).
   */
  function SearchResults(query: string, fetched: Option<seq<CartLines.Product>>): (r: seq<CartLines.Product>)
    ensures |query| < MinQueryLength ==> r == []
    ensures |query| >= MinQueryLength ==> r == fetched.GetOr([])
  {
    if query == "" || |query| < MinQueryLength then [] else fetched.GetOr([])
  }

  /**
   * Results are replaced without resetting the selection, so an index chosen
   * in a longer list can point past a shorter one; Enter then runs the full
   * search instead of opening a product.
   */
  lemma StaleIndexFallsBackToSearch(index: int, query: string, fetched: seq<CartLines.Product>)
    requires |query| >= MinQueryLength && 0 <= |fetched| <= index
    ensures KeyEffect(true, Enter, index, SearchResults(query, Some(fetched)), query) == RunSearch(query)
  {
  }

  class SearchModal {
    var searchQuery: string
    var isSearching: bool
    var searchResults: seq<CartLines.Product>
    var selectedIndex: int

    /** The initial state: empty query, no results, nothing selected. */
    constructor ()
      ensures searchQuery == "" && !isSearching && searchResults == [] && selectedIndex == -1
      ensures InRange(selectedIndex, |searchResults|)
    {
      searchQuery, isSearching, searchResults, selectedIndex := "", false, [], -1;
    }

    /** The input's `onChange`, the clear button and the popular-search chips all set the query. */
    method SetQuery(q: string)
      modifies this
      ensures searchQuery == q
      ensures isSearching == old(isSearching) && searchResults == old(searchResults) && selectedIndex == old(selectedIndex)
    {
      searchQuery := q;
    }

    /** The `performSearch` effect run for the debounced query. */
    method PerformSearch(debouncedQuery: string, fetched: Option<seq<CartLines.Product>>)
      modifies this
      ensures searchResults == SearchResults(debouncedQuery, fetched)
      ensures isSearching == if |debouncedQuery| < MinQueryLength then old(isSearching) else false
      ensures searchQuery == old(searchQuery) && selectedIndex == old(selectedIndex)
    {
      if debouncedQuery == "" || |debouncedQuery| < MinQueryLength {
        searchResults := [];
        return;
      }
      isSearching := true;
      match fetched {
        case Some(products) => searchResults := products;
        case None => searchResults := [];
      }
      isSearching := false;
    }

    /** The window `keydown` handler. */
    method HandleKeyDown(open: bool, key: Key) returns (effect: Effect)
      modifies this
      ensures selectedIndex == if open then NextIndex(old(selectedIndex), key, |searchResults|) else old(selectedIndex)
      ensures effect == KeyEffect(open, key, old(selectedIndex), searchResults, searchQuery)
      ensures searchQuery == old(searchQuery) && searchResults == old(searchResults) && isSearching == old(isSearching)
    {
      effect := NoEffect;
      if !open {
        return;
      }
      match key {
        case ArrowDown =>
          selectedIndex := Down(selectedIndex, |searchResults|);
        case ArrowUp =>
          selectedIndex := Up(selectedIndex);
        case Enter =>
          if selectedIndex >= 0 && selectedIndex < |searchResults| {
            effect := OpenProduct(searchResults[selectedIndex].id);
          } else if searchQuery != "" {
            effect := HandleSearch();
          }
        case Escape =>
          effect := Close;
        case OtherKey(_) =>
      }
    }

    /** `handleSearch()`. */
    method HandleSearch() returns (effect: Effect)
      ensures effect == SearchEffect(searchQuery)
    {
      effect := if searchQuery != "" then RunSearch(searchQuery) else NoEffect;
    }

    /** `handleProductClick(product)`. */
    method HandleProductClick(product: CartLines.Product) returns (effect: Effect)
      ensures effect == OpenProduct(product.id)
    {
      effect := OpenProduct(product.id);
    }
  }

  /** While the results stay put, key presses keep the selection in range. */
  method PressKeys(modal: SearchModal, open: bool, keys: seq<Key>) returns (effects: seq<Effect>)
    requires InRange(modal.selectedIndex, |modal.searchResults|)
    modifies modal
    ensures |effects| == |keys|
    ensures InRange(modal.selectedIndex, |modal.searchResults|)
    ensures open ==> modal.selectedIndex == RunKeys(old(modal.selectedIndex), keys, |modal.searchResults|)
    ensures modal.searchResults == old(modal.searchResults)
  {
    effects := [];
    var k := 0;
    while k < |keys|
      invariant 0 <= k <= |keys|
      invariant |effects| == k
      invariant modal.searchResults == old(modal.searchResults)
      invariant InRange(modal.selectedIndex, |modal.searchResults|)
      invariant open ==> RunKeys(modal.selectedIndex, keys[k..], |modal.searchResults|)
                         == RunKeys(old(modal.selectedIndex), keys, |modal.searchResults|)
    {
      NextIndexInRange(modal.selectedIndex, keys[k], |modal.searchResults|);
      assert keys[k..][1..] == keys[k + 1..];
      var e := modal.HandleKeyDown(open, keys[k]);
      effects := effects + [e];
      k := k + 1;
    }
    assert keys[k..] == [];
  }
}
