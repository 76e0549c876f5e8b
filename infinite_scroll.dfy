/**
 * The pagination window of the task list: a prefix of the backing sequence
 * that grows by one page each time the last rendered element becomes visible.
 */
module InfiniteScroll {
  import opened Wrappers

  function Min(a: nat, b: nat): nat {
    if a <= b then a else b
  }

  /** `items.slice(0, page * itemsPerPage)`: the prefix of that length, clamped to the sequence. */
  function Window<T>(items: seq<T>, page: nat, itemsPerPage: nat): (r: seq<T>)
    ensures |r| == Min(page * itemsPerPage, |items|)
    ensures r <= items
  {
    items[..Min(page * itemsPerPage, |items|)]
  }

  /** `endIndex < items.length`: the window is shorter than the items. */
  predicate HasMore<T>(items: seq<T>, page: nat, itemsPerPage: nat)
    ensures HasMore(items, page, itemsPerPage) <==> |Window(items, page, itemsPerPage)| < |items|
  {
    page * itemsPerPage < |items|
  }

  /** There is more to show exactly when the window leaves some item out. */
  lemma HasMoreIffWindowShort<T>(items: seq<T>, page: nat, itemsPerPage: nat)
    ensures HasMore(items, page, itemsPerPage) <==> Window(items, page, itemsPerPage) != items
  {
    if !HasMore(items, page, itemsPerPage) {
      assert Window(items, page, itemsPerPage) == items[..|items|];
    }
  }

  /** For fixed items, a later page never shows less: each window is a prefix of the next. */
  lemma WindowGrows<T>(items: seq<T>, page: nat, later: nat, itemsPerPage: nat)
    requires page <= later
    ensures Window(items, page, itemsPerPage) <= Window(items, later, itemsPerPage)
  {
    assert page * itemsPerPage <= later * itemsPerPage by {
      MulMonotone(page, later, itemsPerPage);
    }
  }

  lemma {:induction false} MulMonotone(a: nat, b: nat, k: nat)
    requires a <= b
    ensures a * k <= b * k
  {
    if k > 0 {
      MulMonotone(a, b, k - 1);
      assert a * k == a * (k - 1) + a;
      assert b * k == b * (k - 1) + b;
    }
  }

  /** A backing sequence no longer than the page depth is shown whole, with nothing more to load. */
  lemma ShortItemsShownWhole<T>(items: seq<T>, page: nat, itemsPerPage: nat)
    requires |items| <= page * itemsPerPage
    ensures Window(items, page, itemsPerPage) == items
    ensures !HasMore(items, page, itemsPerPage)
  {
  }

  /** The state of the `useInfiniteScroll` hook. */
  class ScrollState<T> {
    const itemsPerPage: nat
    var displayedItems: seq<T>
    var page: nat
    var hasMore: bool
    var isLoadingMore: bool

    /** The page counter starts at 1 and only grows. */
    ghost predicate Valid()
      reads this
    {
      page >= 1
    }

    /** The initial hook state, before the first recompute. */
    constructor (itemsPerPage: nat)
      ensures Valid()
      ensures this.itemsPerPage == itemsPerPage
      ensures displayedItems == [] && page == 1 && hasMore && !isLoadingMore
    {
      this.itemsPerPage := itemsPerPage;
      displayedItems := [];
      page := 1;
      hasMore := true;
      isLoadingMore := false;
    }

    /**
     * The sentinel element's visibility callback: ignored while a page is
     * loading, and otherwise moves to the next page only when there is more.
     */
    method Trigger(isIntersecting: bool) returns (fired: bool)
      requires Valid()
      modifies this`page, this`isLoadingMore
      ensures Valid()
      ensures fired <==> !old(isLoadingMore) && isIntersecting && hasMore
      ensures page == if fired then old(page) + 1 else old(page)
      ensures isLoadingMore == (old(isLoadingMore) || fired)
    {
      fired := false;
      if isLoadingMore {
        return;
      }
      if isIntersecting && hasMore {
        isLoadingMore := true;
        page := page + 1;
        fired := true;
      }
    }

    /**
     * The effect that re-slices on every change of the items or the page:
     * the page is kept, the window is clamped, and loading is over.
     * Absent items (`!items`) leave everything as it was.
     */
    method Recompute(items: Option<seq<T>>)
      requires Valid()
      modifies this`displayedItems, this`hasMore, this`isLoadingMore
      ensures Valid()
      ensures items.None? ==> displayedItems == old(displayedItems) && hasMore == old(hasMore) && isLoadingMore == old(isLoadingMore)
      ensures items.Some? ==> displayedItems == Window(items.value, page, itemsPerPage)
      ensures items.Some? ==> hasMore == HasMore(items.value, page, itemsPerPage)
      ensures items.Some? ==> !isLoadingMore
      ensures items.Some? ==> Window(items.value, 1, itemsPerPage) <= displayedItems
    {
      if items.None? {
        return;
      }
      var endIndex := page * itemsPerPage;
      var newItems := items.value[..Min(endIndex, |items.value|)];
      displayedItems := newItems;
      hasMore := endIndex < |items.value|;
      isLoadingMore := false;
      WindowGrows(items.value, 1, page, itemsPerPage);
    }
  }

  /**
   * Twenty-five items at ten per page: 10 shown with more to come, then 20,
   * then all 25 with nothing more, after which a further trigger changes nothing.
   */
  method TwentyFiveItems(items: seq<int>)
    requires |items| == 25
  {
    var s := new ScrollState<int>(10);
    s.Recompute(Some(items));
    assert |s.displayedItems| == 10 && s.hasMore;
    var fired := s.Trigger(true);
    assert fired;
    s.Recompute(Some(items));
    assert |s.displayedItems| == 20 && s.hasMore;
    fired := s.Trigger(true);
    s.Recompute(Some(items));
    assert s.displayedItems == items && !s.hasMore;
    fired := s.Trigger(true);
    assert !fired && s.page == 3;
    s.Recompute(Some(items));
    assert s.displayedItems == items;
  }
}
