/**
 * The app's Flow-based data: the adapter that turns a Flow-returning API
 * into a data source, and the view model that pages through that API and
 * decorates each entry with its selection.
 *
 * The API itself is not modelled: what its Flow first emits (a page of
 * entries, or an exception) is a parameter, and the request it receives is
 * computed separately.
 */
module FlowData {
  import opened Wrappers
  import opened Throwables
  import opened PagingResults
  import opened ListItems
  import SourceExtension

  /** The arguments of `apiService.getPageData`. */
  datatype ApiRequest = ApiRequest(pageIndex: int, pageSize: int)

  /** What the API's Flow first emits: a list of entries, or a failure. */
  datatype ApiResponse = Emitted(pageData: seq<ListItem>) | Threw(error: Throwable)

  /** `FlowDataSourceAdapter`, with its configured page size. */
  datatype FlowDataSourceAdapter = FlowDataSourceAdapter(pageSize: int) {

    /** `getInitialKey`: the first load asks for page 0. */
    function GetInitialKey(): (k: Option<int>)
      ensures k.Some? && Request(k).pageIndex == 0
    {
      Some(0)
    }

    /** The API request `loadPage(key)` makes: a missing key is page 0. */
    function Request(key: Option<int>): (r: ApiRequest)
      ensures key.None? ==> r.pageIndex == 0
      ensures key.Some? ==> r.pageIndex == key.value
      ensures r.pageSize == pageSize
    {
      ApiRequest(key.GetOr(0), pageSize)
    }

    /**
     * `loadPage(key)`: the page is exactly what the API emitted; a page
     * shorter than the page size is the last one, otherwise the next key is
     * the following page. An API failure is passed on.
     */
    function LoadPage(key: Option<int>, response: ApiResponse): (o: Outcome<int, ListItem>)
      ensures response.Threw? ==> o == Failure(response.error)
      ensures response.Emitted? ==>
        && o.Success? && o.result.data == response.pageData
        && (o.result.nextKey.None? <==> |response.pageData| < pageSize)
        && (o.result.nextKey.Some? ==> o.result.nextKey.value == Request(key).pageIndex + 1)
    {
      var currentPageIndex := key.GetOr(0);
      match response
      case Threw(e) => Failure(e)
      case Emitted(pageData) =>
        var isLastPage := |pageData| < pageSize;
        var nextKey := if isLastPage then None else Some(currentPageIndex + 1);
        Success(PagingResult(pageData, nextKey))
    }
  }

  /** The request the view model's source sends to the API. */
  function SourceRequest(key: Option<int>, pageSize: int): (r: ApiRequest)
    ensures key.None? ==> r.pageIndex == 0
    ensures key.Some? ==> r.pageIndex == key.value
    ensures r.pageSize == pageSize
  {
    ApiRequest(key.GetOr(0), pageSize)
  }

  /**
   * The view model's `articlePagingSource`: the same key rule as the
   * adapter, with the page size passed in by the engine.
   */
  function ArticlePagingSource(key: Option<int>, pageSize: int, response: ApiResponse): (o: Outcome<int, ListItem>)
    ensures response.Threw? ==> o == Failure(response.error)
    ensures response.Emitted? ==>
      && o.Success? && o.result.data == response.pageData
      && (o.result.nextKey.None? <==> |response.pageData| < pageSize)
      && (o.result.nextKey.Some? ==> o.result.nextKey.value == key.GetOr(0) + 1)
  {
    var currentPage := key.GetOr(0);
    match response
    case Threw(e) => Failure(e)
    case Emitted(pageData) =>
      Success(PagingResult(pageData, if |pageData| < pageSize then None else Some(currentPage + 1)))
  }

  /** The adapter and the view model's source agree on every key and response. */
  lemma SourcesAgree(key: Option<int>, pageSize: int, response: ApiResponse)
    ensures FlowDataSourceAdapter(pageSize).LoadPage(key, response) == ArticlePagingSource(key, pageSize, response)
    ensures FlowDataSourceAdapter(pageSize).Request(key) == SourceRequest(key, pageSize)
  {
  }

  /** An entry with its selection flag. */
  datatype SelectableItem = SelectableItem(data: ListItem, isSelected: bool)

  /** `toggleSelection`'s update: remove the id when present, add it when absent. */
  function Toggled(ids: set<int>, id: int): (r: set<int>)
    ensures id in ids ==> id !in r
    ensures id !in ids ==> id in r
    ensures forall other :: other != id ==> (other in r <==> other in ids)
  {
    if id in ids then ids - {id} else ids + {id}
  }

  /** Toggling the same id twice restores the selection. */
  lemma ToggleTwice(ids: set<int>, id: int)
    ensures Toggled(Toggled(ids, id), id) == ids
  {
  }

  /** Whether one entry is shown selected: placeholders never are. */
  function Selected(item: ListItem, ids: set<int>): bool {
    match item
    case ArticleItem(article) => article.id in ids
    case Placeholder => false
  }

  /**
   * `items`: the paged entries in order, each with its selection flag; a
   * placeholder is never selected, an article exactly when its id is.
   */
  function Items(data: seq<ListItem>, ids: set<int>): (r: seq<SelectableItem>)
    ensures |r| == |data|
    ensures forall i :: 0 <= i < |data| ==> r[i].data == data[i]
    ensures forall i :: 0 <= i < |data| ==> data[i].Placeholder? ==> !r[i].isSelected
    ensures forall i :: 0 <= i < |data| ==> data[i].ArticleItem? ==> (r[i].isSelected <==> data[i].article.id in ids)
  {
    SourceExtension.MapSeq(data, (item: ListItem) => SelectableItem(item, Selected(item, ids)))
  }

  /** The selection the view model holds. */
  class FlowDataSourceViewModel {
    var selectedIds: set<int>

    constructor ()
      ensures selectedIds == {}
    {
      selectedIds := {};
    }

    method ToggleSelection(articleId: int)
      modifies this
      ensures selectedIds == Toggled(old(selectedIds), articleId)
    {
      if articleId in selectedIds {
        selectedIds := selectedIds - {articleId};
      } else {
        selectedIds := selectedIds + {articleId};
      }
    }

    method ClearSelections()
      modifies this
      ensures selectedIds == {}
    {
      selectedIds := {};
    }
  }
}
