/**
  The client-facing portfolio grid: one button per category narrows the list of
  showcase items, and a message appears when nothing is left.
*/
module Portfolio {
  import opened Wrappers
  import opened Seqs
  import opened Categories

  datatype PortfolioItem = PortfolioItem(
    id: int,
    title: string,
    category: Category,
    image: string,
    client: string,
    description: string)

  /** The filter value of the "All Work" button. */
  const All := "all"

  /** The filter the page starts with. */
  const InitialFilter := All

  /** The test applied to each item when the filter is not `all`. */
  predicate InCategory(item: PortfolioItem, filter: string)
  {
    Name(item.category) == filter
  }

  /** `filteredItems`: the whole list for `all`, otherwise the items of the named category. */
  function FilteredItems(items: seq<PortfolioItem>, filter: string): (r: seq<PortfolioItem>)
    ensures filter == All ==> r == items
    ensures IsSubsequence(r, items)
    ensures filter != All ==> forall it | it in r :: it in items && Parse(filter) == Some(it.category)
    ensures filter != All ==> forall it | it in items && Parse(filter) == Some(it.category) :: it in r
  {
    if filter == All then
      SubsequenceOfSelf(items);
      items
    else
      Filter(items, it => InCategory(it, filter))
  }

  /**
    For a filter other than `all` the result keeps every occurrence of every item
    of that category and nothing else; with the subsequence property this fixes
    it completely (see Seqs.FilterUnique).
  */
  lemma FilteredItemsCount(items: seq<PortfolioItem>, filter: string, x: PortfolioItem)
    requires filter != All
    ensures multiset(FilteredItems(items, filter))[x]
         == if Parse(filter) == Some(x.category) then multiset(items)[x] else 0
  {
    FilterCount(items, it => InCategory(it, filter), x);
  }

  /** Initially every item is shown, in list order. */
  lemma InitiallyAllShown(items: seq<PortfolioItem>)
    ensures FilteredItems(items, InitialFilter) == items
  {
  }

  /**
    Every item is in exactly one of the category views, so the three views
    together hold the whole list: their multisets add up to the list's, and so
    do their lengths.
  */
  lemma CategoriesPartition(items: seq<PortfolioItem>)
    ensures multiset(FilteredItems(items, "web"))
          + multiset(FilteredItems(items, "thumbnail"))
          + multiset(FilteredItems(items, "video"))
         == multiset(items)
    ensures |FilteredItems(items, "web")|
          + |FilteredItems(items, "thumbnail")|
          + |FilteredItems(items, "video")|
         == |items|
  {
    var w, t, v := FilteredItems(items, "web"), FilteredItems(items, "thumbnail"), FilteredItems(items, "video");
    forall x ensures (multiset(w) + multiset(t) + multiset(v))[x] == multiset(items)[x] {
      FilteredItemsCount(items, "web", x);
      FilteredItemsCount(items, "thumbnail", x);
      FilteredItemsCount(items, "video", x);
    }
    assert multiset(w) + multiset(t) + multiset(v) == multiset(items);
    assert |multiset(w) + multiset(t) + multiset(v)| == |w| + |t| + |v|;
  }

  /** Whether the "No portfolio items found" message is displayed. */
  function ShowsEmptyMessage(items: seq<PortfolioItem>, filter: string): (b: bool)
    ensures b <==> forall it | it in items :: filter != All && Parse(filter) != Some(it.category)
  {
    var r := FilteredItems(items, filter);
    if filter == All then
      assert items != [] ==> items[0] in items;
      |r| == 0
    else
      assert (forall it | it in items :: Parse(filter) != Some(it.category)) ==> r == [] by {
        if forall it | it in items :: Parse(filter) != Some(it.category) {
          FilterNonePass(items, it => InCategory(it, filter));
        }
      }
      assert r != [] ==> r[0] in r;
      |r| == 0
  }
}
