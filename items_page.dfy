/**
 * ui/screens/search/ItemsPage.kt: the infinite-scroll grid. The stored page (`itemsPage`)
 * changes only when a provider call completes; what the grid shows (items, an "empty"
 * message, loading placeholders) is derived from it, and a load is triggered only when the
 * first placeholder (`loading0`) becomes visible.
 *
 * The merge `itemsPage + page` comes from the catalog client and is not modelled: it is the
 * parameter `plus`, about which nothing is assumed.
 */
module ItemsPageScreen {
  import opened Wrappers
  import opened Innertube

  /** What a provider call returns, `Result<ItemsPage<T>?>?`; the outer `None` is `null`. */
  type Response<T> = Option<Result<Option<ItemsPage<T>>, Error>>

  /** The keys of the grid's entries: an item's key, "empty", and "loading<i>". */
  datatype GridKey = ItemKey(key: string) | EmptyKey | LoadingKey(index: nat)

  /** The placeholder counts used when the caller passes none. */
  const DefaultInitialPlaceholderCount := 16
  const DefaultContinuationPlaceholderCount := 6

  /** `s.contains(part)`: `part` occurs in `s` as a contiguous piece. */
  predicate Contains(s: string, part: string)
    decreases |s|
  {
    |part| <= |s| && (s[..|part|] == part || Contains(s[1..], part))
  }

  /** Song and video grids are laid out as lists, every other grid as tiles. */
  predicate ListLayout(tag: string) {
    Contains(tag, "songs") || Contains(tag, "videos")
  }

  /** A piece found in `s` is still found after anything is put in front of `s`. */
  lemma {:induction false} ContainsAfterPrefix(before: string, s: string, part: string)
    requires Contains(s, part)
    ensures Contains(before + s, part)
    decreases |before|
  {
    if before != [] {
      ContainsAfterPrefix(before[1..], s, part);
      assert (before + s)[1..] == before[1..] + s;
    } else {
      assert before + s == s;
    }
  }

  /** Any tag mentioning songs or videos, wherever in the tag, gets the list layout. */
  lemma ListLayoutTags(before: string, after: string)
    ensures ListLayout(before + "songs" + after)
    ensures ListLayout(before + "videos" + after)
  {
    assert ("songs" + after)[..5] == "songs";
    ContainsAfterPrefix(before, "songs" + after, "songs");
    assert before + "songs" + after == before + ("songs" + after);
    assert ("videos" + after)[..6] == "videos";
    ContainsAfterPrefix(before, "videos" + after, "videos");
    assert before + "videos" + after == before + ("videos" + after);
  }

  /** `itemsPage?.continuation` */
  function ContinuationOf<T>(page: Option<ItemsPage<T>>): Option<Cursor> {
    if page.Some? then page.value.continuation else None
  }

  /** `itemsPage?.items.isNullOrEmpty()` */
  predicate ItemsNullOrEmpty<T>(page: Option<ItemsPage<T>>) {
    page.None? || page.value.items.None? || page.value.items.value == []
  }

  /** The "no items" message is shown. */
  predicate ShowsEmptyMessage<T>(page: Option<ItemsPage<T>>) {
    page.Some? && ItemsNullOrEmpty(page)
  }

  /** Loading placeholders are shown. */
  predicate ShowsPlaceholders<T>(page: Option<ItemsPage<T>>) {
    page.None? || page.value.continuation.Some?
  }

  /** How many placeholders are shown when they are: more before the first items arrive. */
  function PlaceholderCount<T>(page: Option<ItemsPage<T>>, initialCount: int, continuationCount: int): int {
    if ItemsNullOrEmpty(page) then initialCount else continuationCount
  }

  function ItemKeys<T>(items: seq<T>, keyOf: T -> string): (r: seq<GridKey>)
    ensures |r| == |items| && forall i :: 0 <= i < |r| ==> r[i] == ItemKey(keyOf(items[i]))
  {
    seq(|items|, i requires 0 <= i < |items| => ItemKey(keyOf(items[i])))
  }

  function LoadingKeys(count: int): (r: seq<GridKey>)
    ensures |r| == (if count < 0 then 0 else count)
    ensures forall i :: 0 <= i < |r| ==> r[i] == LoadingKey(i)
  {
    if count <= 0 then [] else seq(count, i requires 0 <= i < count => LoadingKey(i))
  }

  /** The keys of the grid, top to bottom. */
  function RenderedKeys<T>(page: Option<ItemsPage<T>>, keyOf: T -> string, initialCount: int, continuationCount: int): seq<GridKey>
  {
    ItemKeys(if page.Some? && page.value.items.Some? then page.value.items.value else [], keyOf)
      + (if ShowsEmptyMessage(page) then [EmptyKey] else [])
      + (if ShowsPlaceholders(page) then LoadingKeys(PlaceholderCount(page, initialCount, continuationCount)) else [])
  }

  /** `visibleItemsInfo.any { it.key == "loading0" }` */
  predicate ShouldLoadMore(visible: set<GridKey>) {
    LoadingKey(0) in visible
  }

  /** The stored page after a provider call, and whether the grid scrolls back to the top. */
  datatype Loaded<T> = Loaded(page: Option<ItemsPage<T>>, scrollToTop: bool)

  /** How one provider response changes the stored page. */
  function Apply<T(==)>(
    page: Option<ItemsPage<T>>, response: Response<T>,
    plus: (Option<ItemsPage<T>>, ItemsPage<T>) -> ItemsPage<T>): Loaded<T>
  {
    match response
    case None => Loaded(page, false)
    case Some(Failure(_)) => Loaded(page, false)
    case Some(Success(None)) =>
      Loaded(if page.None? then Some(ItemsPage(None, None)) else page, false)
    case Some(Success(Some(p))) =>
      var merged := plus(page, p);
      Loaded(Some(merged), merged == p)
  }

  /**
   * A `null` response or a failure leaves the stored page as it is; an empty success turns a
   * never-loaded page into one with no items and no continuation and leaves a loaded page as
   * it is; a page `p` is merged in with `plus`, and the grid scrolls to the top exactly when
   * the merged page is `p` itself.
   */
  lemma ApplyCases<T>(
    page: Option<ItemsPage<T>>, response: Response<T>,
    plus: (Option<ItemsPage<T>>, ItemsPage<T>) -> ItemsPage<T>)
    ensures var r := Apply(page, response, plus);
      && (response.None? || response.value.Failure? ==> r == Loaded(page, false))
      && (response == Some(Success(None)) && page.None? ==> r == Loaded(Some(ItemsPage(None, None)), false))
      && (response == Some(Success(None)) && page.Some? ==> r == Loaded(page, false))
      && (response.Some? && response.value.Success? && response.value.value.Some? ==>
            r.page == Some(plus(page, response.value.value.value))
            && (r.scrollToTop <==> plus(page, response.value.value.value) == response.value.value.value))
  {
  }

  /**
   * An empty answer to the first load stores a page that shows the empty message and no
   * placeholders, so nothing can trigger another load.
   */
  lemma EmptyFirstLoadSettles<T>(
    plus: (Option<ItemsPage<T>>, ItemsPage<T>) -> ItemsPage<T>,
    keyOf: T -> string, initialCount: int, continuationCount: int)
    ensures var settled := Apply(None, Some(Success(None)), plus).page;
      && ShowsEmptyMessage(settled)
      && !ShowsPlaceholders(settled)
      && RenderedKeys(settled, keyOf, initialCount, continuationCount) == [EmptyKey]
  {
    var settled := Apply(None, Some(Success(None)), plus).page;
    assert ItemKeys([], keyOf) == [];
  }

  /**
   * When `loading0` is among the visible entries, the grid shows placeholders, so the stored
   * page is missing or has a continuation, and at least one placeholder is shown.
   */
  lemma LoadNeedsPlaceholders<T>(
    page: Option<ItemsPage<T>>, keyOf: T -> string, initialCount: int, continuationCount: int,
    visible: set<GridKey>)
    requires forall k :: k in visible ==> k in RenderedKeys(page, keyOf, initialCount, continuationCount)
    requires ShouldLoadMore(visible)
    ensures ShowsPlaceholders(page)
    ensures PlaceholderCount(page, initialCount, continuationCount) > 0
  {
    var items := if page.Some? && page.value.items.Some? then page.value.items.value else [];
    var rendered := RenderedKeys(page, keyOf, initialCount, continuationCount);
    var shown := ItemKeys(items, keyOf) + (if ShowsEmptyMessage(page) then [EmptyKey] else []);
    var loading := if ShowsPlaceholders(page) then LoadingKeys(PlaceholderCount(page, initialCount, continuationCount)) else [];
    assert rendered == shown + loading;
    assert LoadingKey(0) in rendered;
    assert LoadingKey(0) !in shown;
    assert LoadingKey(0) in loading;
  }

  /** One collected emission of the `loading0` visibility flow. */
  datatype Step<T> = Step(loaded: Loaded<T>, request: Option<Option<Cursor>>)

  /**
   * The `collect` body: with no provider nothing happens; when `loading0` is not visible
   * nothing happens; otherwise the provider is asked for the stored page's continuation
   * (`null` before the first load) and its response is applied.
   */
  function LoadStep<T(==)>(
    page: Option<ItemsPage<T>>, provider: Option<Option<Cursor> -> Response<T>>,
    visible: set<GridKey>, plus: (Option<ItemsPage<T>>, ItemsPage<T>) -> ItemsPage<T>): Step<T>
  {
    if provider.None? || !ShouldLoadMore(visible) then Step(Loaded(page, false), None)
    else
      var cursor := ContinuationOf(page);
      Step(Apply(page, provider.value(cursor), plus), Some(cursor))
  }

  /** Several emissions in a row, each seeing the page the previous one stored. */
  function Run<T(==)>(
    page: Option<ItemsPage<T>>, provider: Option<Option<Cursor> -> Response<T>>,
    visibles: seq<set<GridKey>>, plus: (Option<ItemsPage<T>>, ItemsPage<T>) -> ItemsPage<T>): (r: (Option<ItemsPage<T>>, seq<Option<Cursor>>))
    decreases |visibles|
  {
    if visibles == [] then (page, [])
    else
      var step := LoadStep(page, provider, visibles[0], plus);
      var rest := Run(step.loaded.page, provider, visibles[1..], plus);
      (rest.0, (if step.request.Some? then [step.request.value] else []) + rest.1)
  }

  /** With no provider no request is ever made and the stored page never changes. */
  lemma {:induction false} NoProviderNoLoad<T>(
    page: Option<ItemsPage<T>>, visibles: seq<set<GridKey>>,
    plus: (Option<ItemsPage<T>>, ItemsPage<T>) -> ItemsPage<T>)
    ensures Run(page, None, visibles, plus).0 == page && Run(page, None, visibles, plus).1 == []
    decreases |visibles|
  {
    if visibles != [] {
      assert LoadStep(page, None, visibles[0], plus) == Step(Loaded(page, false), None);
      NoProviderNoLoad(page, visibles[1..], plus);
    }
  }

  /**
   * Once a page without a continuation is stored, and every emission reports only entries
   * the grid actually shows, no further provider call occurs and the page stays as it is.
   */
  lemma {:induction false} ExhaustedPageStaysPut<T>(
    page: Option<ItemsPage<T>>, provider: Option<Option<Cursor> -> Response<T>>,
    visibles: seq<set<GridKey>>, plus: (Option<ItemsPage<T>>, ItemsPage<T>) -> ItemsPage<T>,
    keyOf: T -> string, initialCount: int, continuationCount: int)
    requires page.Some? && page.value.continuation.None?
    requires forall j, k :: 0 <= j < |visibles| && k in visibles[j] ==>
      k in RenderedKeys(page, keyOf, initialCount, continuationCount)
    ensures Run(page, provider, visibles, plus).0 == page && Run(page, provider, visibles, plus).1 == []
    decreases |visibles|
  {
    if visibles != [] {
      if ShouldLoadMore(visibles[0]) {
        LoadNeedsPlaceholders(page, keyOf, initialCount, continuationCount, visibles[0]);
      }
      assert LoadStep(page, provider, visibles[0], plus) == Step(Loaded(page, false), None);
      assert forall j, k :: 0 <= j < |visibles[1..]| && k in visibles[1..][j] ==>
        k in RenderedKeys(page, keyOf, initialCount, continuationCount) by {
        forall j, k | 0 <= j < |visibles[1..]| && k in visibles[1..][j]
          ensures k in RenderedKeys(page, keyOf, initialCount, continuationCount)
        {
          assert visibles[1..][j] == visibles[j + 1];
        }
      }
      ExhaustedPageStaysPut(page, provider, visibles[1..], plus, keyOf, initialCount, continuationCount);
    }
  }

  /** The grid's state: the page persisted under its tag. */
  class ItemsPageState<T(==)> {
    var itemsPage: Option<ItemsPage<T>>

    /** The grid starts with whatever was persisted under its tag (`null` the first time). */
    constructor (persisted: Option<ItemsPage<T>>)
      ensures itemsPage == persisted
    {
      itemsPage := persisted;
    }

    /**
     * One emission of the visibility flow: returns the continuation the provider was called
     * with, if it was called, and whether the grid is asked to scroll to the top.
     */
    method OnVisibleItems(
      provider: Option<Option<Cursor> -> Response<T>>, visible: set<GridKey>,
      plus: (Option<ItemsPage<T>>, ItemsPage<T>) -> ItemsPage<T>)
      returns (request: Option<Option<Cursor>>, scrollToTop: bool)
      modifies this
      ensures Step(Loaded(itemsPage, scrollToTop), request) == LoadStep(old(itemsPage), provider, visible, plus)
    {
      request, scrollToTop := None, false;
      if provider.None? {
        return;
      }
      if !ShouldLoadMore(visible) {
        return;
      }
      var cursor := ContinuationOf(itemsPage);
      var response := provider.value(cursor);
      request := Some(cursor);
      if response.Some? && response.value.Success? {
        match response.value.value {
          case None =>
            if itemsPage.None? {
              itemsPage := Some(ItemsPage(None, None));
            }
          case Some(p) =>
            itemsPage := Some(plus(itemsPage, p));
            if itemsPage.value == p {
              scrollToTop := true;
            }
        }
      }
    }
  }
}
