/**
 * Runs of the paging state machines against the mock article sources, each
 * step's outcome supplied in place of the asynchronous source call.
 */
module Scenarios {
  import opened Wrappers
  import opened Throwables
  import opened PagingResults
  import opened ListItems
  import opened CoreLoadState
  import opened Engine
  import opened ArticleSource
  import AppPaging

  /**
   * With page size 20 and no failure, a refresh followed by four load-mores
   * yields the 80 articles numbered 0 to 79, in order, and the state `End`.
   */
  method RefreshThenFourLoadMores() returns (items: seq<ListItem>, state: LoadState, keys: seq<Option<int>>)
    ensures items == ArticlesFrom(0, 80)
    ensures |items| == 80 && forall i :: 0 <= i < 80 ==> items[i] == NumberedArticle(i)
    ensures state == End
    ensures keys == [None, Some(1), Some(2), Some(3), Some(4)]
  {
    var engine := new PagingEngine<int, ListItem>(ArticlePageSize);
    var request := engine.Refresh();
    engine.Finish(ArticlePage(request.key, request.pageSize, false, 1));
    assert engine.currentList == ArticlesFrom(0, 20) && engine.currentKey == Some(1);
    var r1 := engine.LoadMore();
    engine.Finish(ArticlePage(r1.value.key, r1.value.pageSize, false, 2));
    ArticlesConcat(0, 20, 20);
    assert engine.currentList == ArticlesFrom(0, 40) && engine.currentKey == Some(2);
    var r2 := engine.LoadMore();
    engine.Finish(ArticlePage(r2.value.key, r2.value.pageSize, false, 3));
    ArticlesConcat(0, 40, 20);
    assert engine.currentList == ArticlesFrom(0, 60) && engine.currentKey == Some(3);
    var r3 := engine.LoadMore();
    engine.Finish(ArticlePage(r3.value.key, r3.value.pageSize, false, 4));
    ArticlesConcat(0, 60, 20);
    assert engine.currentList == ArticlesFrom(0, 80) && engine.currentKey == Some(4);
    var r4 := engine.LoadMore();
    engine.Finish(ArticlePage(r4.value.key, r4.value.pageSize, false, 5));
    assert engine.currentList == ArticlesFrom(0, 80) + [];
    keys := [request.key, r1.value.key, r2.value.key, r3.value.key, r4.value.key];
    items, state := engine.currentList, engine.currentState;
  }

  /**
   * A failed append on page 1 is an append error; load-more then refuses to
   * run, and retry asks for page 1 again, after which the list holds pages 0
   * and 1.
   */
  method FailedAppendIsRetried() returns (blocked: Option<Request<int>>, retried: Option<Request<int>>, items: seq<ListItem>, state: LoadState)
    ensures blocked == None
    ensures retried == Some(Request(Some(1), 20))
    ensures items == ArticlesFrom(0, 40) && state == NotLoading
  {
    var engine := new PagingEngine<int, ListItem>(ArticlePageSize);
    var request := engine.Refresh();
    engine.Finish(ArticlePage(request.key, request.pageSize, false, 6));
    var next := engine.LoadMore();
    engine.Finish(ArticlePage(next.value.key, next.value.pageSize, true, 7));
    assert engine.currentState == Error(IOException(7, "Mock network error!"), false);
    assert engine.currentList == ArticlesFrom(0, 20);
    blocked := engine.LoadMore();
    retried := engine.Retry();
    engine.Finish(ArticlePage(retried.value.key, retried.value.pageSize, false, 8));
    ArticlesConcat(0, 20, 20);
    items, state := engine.currentList, engine.currentState;
  }

  /**
   * A second refresh issued while the first awaits the source cancels it: the
   * final list, key and state are those of the second refresh's outcome alone.
   */
  method RefreshSupersedesRefresh(second: Outcome<int, ListItem>)
    returns (items: seq<ListItem>, key: Option<int>, state: LoadState)
    ensures second.Success? ==>
      items == second.result.data && key == second.result.nextKey
      && state == (if key.None? then End else NotLoading)
    ensures second.Failure? && !second.error.CancellationException? ==>
      items == [] && key == None && state == Error(second.error, true)
  {
    var engine := new PagingEngine<int, ListItem>(ArticlePageSize);
    var r1 := engine.Refresh();
    var r2 := engine.Refresh();
    engine.Finish(second);
    items, key, state := engine.currentList, engine.currentKey, engine.currentState;
  }

  /**
   * The app's own helper with placeholders on the article source of its view
   * model: refresh shows 20 placeholders, the first page replaces them, a
   * failed append on page 1 is recorded, and retry re-issues exactly that
   * append, after which the list holds 40 articles.
   */
  method HelperRetriesFailedAppend()
    returns (shown: seq<ListItem>, failed: Option<AppPaging.Call<int>>, items: seq<ListItem>, state: AppPaging.LoadState)
    ensures shown == seq(20, _ => Placeholder)
    ensures failed == Some(AppPaging.Call(AppPaging.APPEND, Some(1)))
    ensures |items| == 40
    ensures forall i :: 0 <= i < 40 ==> items[i] == ArticleItem(Article(i, "Article Title"))
    ensures state == AppPaging.NotLoading
  {
    var helper := new AppPaging.PagingHelper<int>(None, Some(seq(20, _ => Placeholder)));
    var queued := helper.Refresh();
    shown := helper.items;
    var call := helper.Acquire();
    helper.Finish(AppPaging.ArticleDataSourcePage(call.value.key, false, 9));
    queued := helper.LoadMore();
    call := helper.Acquire();
    helper.Finish(AppPaging.ArticleDataSourcePage(call.value.key, true, 10));
    failed := helper.lastFailedCall;
    assert helper.loadState == AppPaging.Error(AppPaging.Network(IOException(10, "Mock network error!")));
    queued := helper.Retry();
    call := helper.Acquire();
    helper.Finish(AppPaging.ArticleDataSourcePage(call.value.key, false, 11));
    items, state := helper.items, helper.loadState;
  }
}
