/**
 * The decisions taken by the app's RecyclerView helpers: whether a scroll
 * should load the next page, and how many grid columns a row spans.
 * Layout managers and adapters are reduced to the numbers those decisions read.
 */
module ViewExtensions {
  import opened Wrappers
  import AppLoadStateAdapter
  import AppPaging

  /** `RecyclerView.NO_POSITION`. */
  const NO_POSITION: int := -1

  /** A layout manager, as far as the scroll decision looks at it. */
  datatype LayoutManager =
    /** `LinearLayoutManager`, and `GridLayoutManager`, its subclass. */
    | Linear(lastVisibleItemPosition: int, itemCount: int)
    /** `StaggeredGridLayoutManager`: one last visible position per column. */
    | Staggered(lastVisibleItemPositions: seq<int>, itemCount: int)
    /** Any other layout manager. */
    | OtherLayout(itemCount: int)

  /** Kotlin's `maxOrNull`. */
  function MaxOrNull(s: seq<int>): (r: Option<int>)
    ensures r.None? <==> s == []
    ensures r.Some? ==> r.value in s && forall i :: 0 <= i < |s| ==> s[i] <= r.value
  {
    if s == [] then None
    else
      match MaxOrNull(s[1..])
      case None => Some(s[0])
      case Some(m) => Some(if s[0] >= m then s[0] else m)
  }

  /**
   * The last visible position the scroll listener computes, or `None` when
   * the layout manager is of a kind it does not support. For a staggered grid
   * it is the largest over the columns, or `NO_POSITION` when there are none.
   */
  function LastVisiblePosition(lm: LayoutManager): (r: Option<int>)
    ensures r.None? <==> lm.OtherLayout?
    ensures lm.Linear? ==> r == Some(lm.lastVisibleItemPosition)
    ensures lm.Staggered? && lm.lastVisibleItemPositions == [] ==> r == Some(NO_POSITION)
    ensures lm.Staggered? && lm.lastVisibleItemPositions != [] ==>
      && r.Some? && r.value in lm.lastVisibleItemPositions
      && forall i :: 0 <= i < |lm.lastVisibleItemPositions| ==> lm.lastVisibleItemPositions[i] <= r.value
  {
    match lm
    case Linear(last, _) => Some(last)
    case Staggered(lastPositions, _) => Some(MaxOrNull(lastPositions).GetOr(NO_POSITION))
    case OtherLayout(_) => None
  }

  /**
   * `addLoadMoreListener`'s `onScrolled`: load more only on a downward scroll
   * with a supported layout manager whose last visible position is known, whose
   * list is not empty, and whose last visible position lies within
   * `preloadOffset` of the item count.
   */
  function ShouldLoadMore(dy: int, layoutManager: Option<LayoutManager>, preloadOffset: int): (r: bool)
    ensures dy <= 0 ==> !r
    ensures layoutManager.None? || layoutManager.value.OtherLayout? ==> !r
    ensures layoutManager.Some? && LastVisiblePosition(layoutManager.value) == Some(NO_POSITION) ==> !r
    ensures layoutManager.Some? && layoutManager.value.itemCount == 0 ==> !r
    ensures r <==>
      && dy > 0 && layoutManager.Some?
      && var last := LastVisiblePosition(layoutManager.value);
      && last.Some? && last.value != NO_POSITION
      && layoutManager.value.itemCount != 0
      && last.value >= layoutManager.value.itemCount - preloadOffset
  {
    if dy <= 0 then false
    else if layoutManager.None? then false
    else
      var lm := layoutManager.value;
      match LastVisiblePosition(lm)
      case None => false
      case Some(lastVisibleItemPosition) =>
        if lastVisibleItemPosition == NO_POSITION then false
        else
          var totalItemCount := lm.itemCount;
          if totalItemCount == 0 then false
          else lastVisibleItemPosition >= totalItemCount - preloadOffset
  }

  /**
   * The footer class the span-size lookup's `it is PagingLoadStateAdapter`
   * names. The lookup exists twice, and each copy names the footer adapter of
   * its own package: `ui/ViewExtensions.kt` the one of `ui/PagingLoadStateAdapter.kt`,
   * `PagingHelper.kt` the one declared in that file.
   */
  datatype FooterClass = UiFooter | HelperFooter

  /** One adapter inside a `ConcatAdapter`: one of the two footers, or any other adapter. */
  datatype ChildAdapter =
    /** The footer of `ui/PagingLoadStateAdapter.kt`, over the refresh/append load state. */
    | UiFooterChild(uiState: AppLoadStateAdapter.LoadState, isDataEmpty: bool)
    /** The footer declared in `PagingHelper.kt`, over that file's load state. */
    | HelperFooterChild(helperState: AppPaging.LoadState, isDataEmpty: bool)
    | DataChild(count: nat)

  /** The adapter set on the RecyclerView. */
  datatype Adapter = ConcatAdapter(adapters: seq<ChildAdapter>) | PlainAdapter(count: nat)

  /** `getItemCount` of each kind of child. */
  function ChildCount(c: ChildAdapter): nat {
    match c
    case UiFooterChild(state, isDataEmpty) => AppLoadStateAdapter.FooterCount(state, isDataEmpty)
    case HelperFooterChild(state, isDataEmpty) => AppPaging.FooterCount(state, isDataEmpty)
    case DataChild(n) => n
  }

  /** `it is PagingLoadStateAdapter`, for the class a copy of the lookup names. */
  predicate IsFooter(c: ChildAdapter, footer: FooterClass) {
    match footer
    case UiFooter => c.UiFooterChild?
    case HelperFooter => c.HelperFooterChild?
  }

  /** A `ConcatAdapter`'s item count: the sum of its children's. */
  function TotalCount(children: seq<ChildAdapter>): nat {
    if children == [] then 0 else TotalCount(children[..|children| - 1]) + ChildCount(children[|children| - 1])
  }

  /** `lastOrNull { it is PagingLoadStateAdapter }`, as an index. */
  function LastFooterIndex(children: seq<ChildAdapter>, footer: FooterClass): (r: Option<nat>)
    ensures r.Some? ==> r.value < |children| && IsFooter(children[r.value], footer)
    ensures r.Some? ==> forall j :: r.value < j < |children| ==> !IsFooter(children[j], footer)
    ensures r.None? ==> forall j :: 0 <= j < |children| ==> !IsFooter(children[j], footer)
  {
    if children == [] then None
    else if IsFooter(children[|children| - 1], footer) then Some(|children| - 1)
    else LastFooterIndex(children[..|children| - 1], footer)
  }

  /**
   * The row at `position` is the footer's: the adapter is a `ConcatAdapter`
   * holding a footer of the named class, the row is its last one, and that
   * footer shows a row.
   */
  predicate IsFooterRow(adapter: Option<Adapter>, position: int, footer: FooterClass) {
    && adapter.Some? && adapter.value.ConcatAdapter?
    && var children := adapter.value.adapters;
    && var last := LastFooterIndex(children, footer);
    && last.Some?
    && position == TotalCount(children) - 1
    && ChildCount(children[last.value]) > 0
  }

  /**
   * `getSpanSize` of `autoConfiguredGridLayoutManager`, in the copy whose
   * footer class is `footer`: the footer's row spans all columns and every
   * other row spans one; without a `ConcatAdapter` every row spans one.
   */
  function GetSpanSize(adapter: Option<Adapter>, position: int, spanCount: int, footer: FooterClass): (r: int)
    ensures IsFooterRow(adapter, position, footer) ==> r == spanCount
    ensures !IsFooterRow(adapter, position, footer) ==> r == 1
    ensures adapter.None? || adapter.value.PlainAdapter? ==> r == 1
  {
    if adapter.None? || !adapter.value.ConcatAdapter? then 1
    else
      var children := adapter.value.adapters;
      match LastFooterIndex(children, footer)
      case None => 1
      case Some(i) =>
        if position == TotalCount(children) - 1 && ChildCount(children[i]) > 0 then spanCount else 1
  }

  /**
   * In the copy of `ui/ViewExtensions.kt`, with data present, the last row of
   * a concatenation ending in its footer spans all columns exactly when the
   * footer shows an append state or the end.
   */
  lemma FooterSpansWhenShown(data: nat, state: AppLoadStateAdapter.LoadState, spanCount: int)
    ensures var adapter := Some(ConcatAdapter([DataChild(data), UiFooterChild(state, false)]));
      var last := data + AppLoadStateAdapter.FooterCount(state, false) - 1;
      IsFooterRow(adapter, last, UiFooter) <==> AppLoadStateAdapter.DisplayAsItem(state)
  {
    var children := [DataChild(data), UiFooterChild(state, false)];
    assert children[..1] == [DataChild(data)];
    assert children[..1][..0] == [];
    assert TotalCount(children[..1]) == data;
    assert TotalCount(children) == data + AppLoadStateAdapter.FooterCount(state, false);
  }

  /**
   * In the copy of `PagingHelper.kt`, with data present, the last row of a
   * concatenation ending in that file's footer spans all columns exactly when
   * the footer shows `Loading`, `Error` or `End`; the footer of the other
   * package is not recognised there, so its row spans one column.
   */
  lemma HelperFooterSpansWhenShown(data: nat, state: AppPaging.LoadState, other: AppLoadStateAdapter.LoadState, spanCount: int)
    ensures var adapter := Some(ConcatAdapter([DataChild(data), HelperFooterChild(state, false)]));
      var last := data + AppPaging.FooterCount(state, false) - 1;
      IsFooterRow(adapter, last, HelperFooter) <==> AppPaging.DisplayAsItem(state)
    ensures var adapter := Some(ConcatAdapter([DataChild(data), UiFooterChild(other, false)]));
      forall position :: GetSpanSize(adapter, position, spanCount, HelperFooter) == 1
  {
    var children := [DataChild(data), HelperFooterChild(state, false)];
    assert children[..1] == [DataChild(data)];
    assert children[..1][..0] == [];
    assert TotalCount(children[..1]) == data;
    assert TotalCount(children) == data + AppPaging.FooterCount(state, false);
    var others := [DataChild(data), UiFooterChild(other, false)];
    assert others[..1] == [DataChild(data)];
    assert others[..1][..0] == [];
    assert LastFooterIndex(others, HelperFooter) == None;
  }
}
