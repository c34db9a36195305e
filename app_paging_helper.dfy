/**
 * The demo app's own, older paging state machine (`PagingHelper`), with its
 * error classification, its load state, its footer adapter and the mock data
 * source of the view model declared beside it.
 *
 * A request runs in two halves, as in the library's engine: `PerformLoad`
 * is the part before the mutex (the first append guard, then waiting for the
 * lock), `Acquire` is the lock being granted to the first waiting request
 * (the second guard and `Loading`), and `Finish` is the part after the source
 * call. The mutex is fair, so waiting requests are granted in order.
 */
module AppPaging {
  import opened Wrappers
  import opened Throwables
  import opened PagingResults
  import opened ListItems
  import opened Notifications

  /** A failure classified for display. */
  datatype PagingError = Network(cause: Throwable) | Server(code: int, message: string) | Unknown(cause: Throwable)

  /** `toPagingError`: I/O failures are network errors, everything else is unknown. */
  function ToPagingError(t: Throwable): (e: PagingError)
    ensures e.Network? <==> t.IOException?
    ensures !e.Server?
    ensures e.Network? || e.Unknown?
    ensures e.cause == t
  {
    match t
    case IOException(_, _) => Network(t)
    case _ => Unknown(t)
  }

  datatype LoadState = Loading | Error(error: PagingError) | End | NotLoading

  datatype LoadType = REFRESH | APPEND

  /** A request for one page: its kind and its key. */
  datatype Call<K> = Call(loadType: LoadType, key: Option<K>)

  class PagingHelper<K> {
    /** `dataSource.getInitialKey()`. */
    const initialKey: Option<K>
    /** What `placeholderGenerator` produces, if one is given. */
    const placeholders: Option<seq<ListItem>>

    var items: seq<ListItem>
    var loadState: LoadState
    var nextKey: Option<K>
    var lastFailedCall: Option<Call<K>>
    /** Requests waiting for the mutex, first in line first. */
    var waiting: seq<Call<K>>
    /** The request holding the mutex and awaiting the data source. */
    var running: Option<Call<K>>

    /** While a request awaits the data source, the published state is `Loading`. */
    ghost predicate Valid()
      reads this
    {
      running.Some? ==> loadState == Loading
    }

    constructor (initialKey: Option<K>, placeholders: Option<seq<ListItem>>)
      ensures Valid()
      ensures this.initialKey == initialKey && this.placeholders == placeholders
      ensures items == [] && loadState == NotLoading && nextKey == initialKey
      ensures lastFailedCall == None && waiting == [] && running == None
    {
      this.initialKey := initialKey;
      this.placeholders := placeholders;
      items := [];
      loadState := NotLoading;
      nextKey := initialKey;
      lastFailedCall := None;
      waiting := [];
      running := None;
    }

    /**
     * The start of `performLoad`: an append issued while loading is dropped;
     * any other request waits for the mutex.
     */
    method PerformLoad(call: Call<K>) returns (queued: bool)
      requires Valid()
      modifies this
      ensures Valid()
      ensures queued <==> !(call.loadType == APPEND && old(loadState) == Loading)
      ensures waiting == old(waiting) + (if queued then [call] else [])
      ensures items == old(items) && loadState == old(loadState) && nextKey == old(nextKey)
      ensures lastFailedCall == old(lastFailedCall) && running == old(running)
    {
      if call.loadType == APPEND && loadState == Loading {
        return false;
      }
      waiting := waiting + [call];
      queued := true;
    }

    /**
     * `refresh`: show the placeholders at once, when a generator is given,
     * then request the initial key.
     */
    method Refresh() returns (queued: bool)
      requires Valid()
      modifies this
      ensures Valid() && queued
      ensures items == (if placeholders.Some? then placeholders.value else old(items))
      ensures waiting == old(waiting) + [Call(REFRESH, initialKey)]
      ensures loadState == old(loadState) && nextKey == old(nextKey)
      ensures lastFailedCall == old(lastFailedCall) && running == old(running)
    {
      if placeholders.Some? {
        items := placeholders.value;
      }
      queued := PerformLoad(Call(REFRESH, initialKey));
    }

    /** `loadMore`: request the next key. */
    method LoadMore() returns (queued: bool)
      requires Valid()
      modifies this
      ensures Valid()
      ensures queued <==> old(loadState) != Loading
      ensures waiting == old(waiting) + (if queued then [Call(APPEND, old(nextKey))] else [])
      ensures items == old(items) && loadState == old(loadState) && nextKey == old(nextKey)
      ensures lastFailedCall == old(lastFailedCall) && running == old(running)
    {
      queued := PerformLoad(Call(APPEND, nextKey));
    }

    /** `retry`: repeat exactly the request that failed last, if there is one. */
    method Retry() returns (queued: bool)
      requires Valid()
      modifies this
      ensures Valid()
      ensures old(lastFailedCall).None? ==> !queued
      ensures old(lastFailedCall).Some? ==>
        (queued <==> !(old(lastFailedCall).value.loadType == APPEND && old(loadState) == Loading))
      ensures waiting == old(waiting) + (if queued then [old(lastFailedCall).value] else [])
      ensures items == old(items) && loadState == old(loadState) && nextKey == old(nextKey)
      ensures lastFailedCall == old(lastFailedCall) && running == old(running)
    {
      if lastFailedCall.Some? {
        queued := PerformLoad(lastFailedCall.value);
      } else {
        queued := false;
      }
    }

    /**
     * The mutex is granted to the first waiting request. An append is
     * refused while loading or at the end, but not after an error; otherwise
     * the state becomes `Loading` and the source is asked for the request's key.
     */
    method Acquire() returns (started: Option<Call<K>>)
      requires Valid() && running.None? && waiting != []
      modifies this
      ensures Valid()
      ensures waiting == old(waiting[1..])
      ensures var call := old(waiting[0]);
        if call.loadType == APPEND && (old(loadState) == Loading || old(loadState) == End) then
          started == None && running == None && loadState == old(loadState)
        else
          started == Some(call) && running == Some(call) && loadState == Loading
      ensures items == old(items) && nextKey == old(nextKey) && lastFailedCall == old(lastFailedCall)
    {
      var call := waiting[0];
      waiting := waiting[1..];
      if call.loadType == APPEND && (loadState == Loading || loadState == End) {
        return None;
      }
      loadState := Loading;
      running := Some(call);
      started := Some(call);
    }

    /**
     * The end of `performLoad`, given what the data source produced. A page
     * clears the failed request, takes its next key, replaces the items after
     * a refresh or while placeholders are shown and is appended otherwise; the
     * state becomes `End` or `NotLoading`. A failure of any kind records the
     * request for `retry` and becomes `Error`, leaving items and key alone.
     */
    method Finish(outcome: Outcome<K, ListItem>)
      requires Valid() && running.Some?
      modifies this
      ensures Valid() && running == None && waiting == old(waiting)
      ensures outcome.Success? ==>
        && lastFailedCall == None
        && nextKey == outcome.result.nextKey
        && items == (if old(running.value.loadType) == REFRESH || HasPlaceholder(old(items)) then [] else old(items))
                    + outcome.result.data
        && loadState == (if outcome.result.nextKey.None? then End else NotLoading)
      ensures outcome.Failure? ==>
        && lastFailedCall == old(running)
        && loadState == Error(ToPagingError(outcome.error))
        && items == old(items) && nextKey == old(nextKey)
    {
      var call := running.value;
      running := None;
      match outcome
      case Success(result) =>
        lastFailedCall := None;
        nextKey := result.nextKey;
        var currentItems := if call.loadType == REFRESH || HasPlaceholder(items) then [] else items;
        items := currentItems + result.data;
        loadState := if result.nextKey.None? then End else NotLoading;
      case Failure(e) =>
        lastFailedCall := Some(call);
        loadState := Error(ToPagingError(e));
    }
  }

  /** `displayAsItem` of this file's footer adapter: every state but `NotLoading`. */
  predicate DisplayAsItem(s: LoadState) {
    s.Loading? || s.Error? || s.End?
  }

  /** `getItemCount` of the footer adapter. */
  function FooterCount(s: LoadState, isDataEmpty: bool): (n: nat)
    ensures n <= 1
    ensures n == 1 <==> !isDataEmpty && s != NotLoading
  {
    if !isDataEmpty && DisplayAsItem(s) then 1 else 0
  }

  /**
   * The notifications of the `loadState` setter, decided from the states
   * alone: they announce the change of the count the footer would have with
   * data present.
   */
  function LoadStateEvents(previous: LoadState, value: LoadState): (events: seq<Notify>)
    ensures previous == value ==> events == []
    ensures previous != value && !DisplayAsItem(previous) && DisplayAsItem(value) ==> events == [ItemInserted(0)]
    ensures previous != value && DisplayAsItem(previous) && !DisplayAsItem(value) ==> events == [ItemRemoved(0)]
    ensures previous != value && DisplayAsItem(previous) && DisplayAsItem(value) ==> events == [ItemChanged(0)]
    ensures !DisplayAsItem(previous) && !DisplayAsItem(value) ==> events == []
    ensures Net(events) == FooterCount(value, false) - FooterCount(previous, false)
  {
    if previous == value then []
    else if DisplayAsItem(previous) != DisplayAsItem(value) then
      (if DisplayAsItem(value) then [ItemInserted(0)] else [ItemRemoved(0)])
    else if DisplayAsItem(value) then [ItemChanged(0)]
    else []
  }

  /**
   * A failure replacing another failure is a new state even when both
   * exceptions look alike: with data present, the footer row is rebound.
   */
  lemma RepeatedErrorRebinds(first: Throwable, second: Throwable)
    requires first != second
    ensures LoadStateEvents(Error(ToPagingError(first)), Error(ToPagingError(second))) == [ItemChanged(0)]
  {
    assert ToPagingError(first).cause != ToPagingError(second).cause;
  }

  /**
   * The notifications of the `isDataEmpty` setter: only while the state is
   * displayed, a remove on becoming empty and an insert on becoming
   * non-empty; they always announce the change in item count.
   */
  function DataEmptyEvents(state: LoadState, previous: bool, value: bool): (events: seq<Notify>)
    ensures previous == value || !DisplayAsItem(state) ==> events == []
    ensures previous != value && DisplayAsItem(state) ==> events == [if value then ItemRemoved(0) else ItemInserted(0)]
    ensures Net(events) == FooterCount(state, value) - FooterCount(state, previous)
  {
    if previous != value && DisplayAsItem(state) then
      [if value then ItemRemoved(0) else ItemInserted(0)]
    else []
  }

  class PagingLoadStateAdapter {
    var loadState: LoadState
    var isDataEmpty: bool
    /** Every notification sent so far, oldest first. */
    ghost var log: seq<Notify>

    /** `getItemCount`. */
    function ItemCount(): nat
      reads this
    {
      FooterCount(loadState, isDataEmpty)
    }

    /** The notifications sent so far add up to the current item count. */
    ghost predicate Synced()
      reads this
    {
      Net(log) == ItemCount()
    }

    constructor ()
      ensures loadState == NotLoading && isDataEmpty && log == [] && Synced()
    {
      loadState := NotLoading;
      isDataEmpty := true;
      log := [];
    }

    /** The `loadState` setter; its notifications match the count only while there is data. */
    method SetLoadState(value: LoadState)
      modifies this
      ensures loadState == value && isDataEmpty == old(isDataEmpty)
      ensures log == old(log) + LoadStateEvents(old(loadState), value)
      ensures !isDataEmpty ==> Net(log) - Net(old(log)) == ItemCount() - old(ItemCount())
      ensures !isDataEmpty && old(Synced()) ==> Synced()
    {
      NetAppend(log, LoadStateEvents(loadState, value));
      if loadState != value {
        var oldItemVisible := DisplayAsItem(loadState);
        var newItemVisible := DisplayAsItem(value);
        loadState := value;
        if oldItemVisible != newItemVisible {
          if newItemVisible { log := log + [ItemInserted(0)]; } else { log := log + [ItemRemoved(0)]; }
        } else if newItemVisible {
          log := log + [ItemChanged(0)];
        }
      }
    }

    /** The `isDataEmpty` setter; its notifications always match the count. */
    method SetIsDataEmpty(value: bool)
      modifies this
      ensures isDataEmpty == value && loadState == old(loadState)
      ensures log == old(log) + DataEmptyEvents(old(loadState), old(isDataEmpty), value)
      ensures Net(log) - Net(old(log)) == ItemCount() - old(ItemCount())
      ensures old(Synced()) ==> Synced()
    {
      NetAppend(log, DataEmptyEvents(loadState, isDataEmpty, value));
      if isDataEmpty != value {
        isDataEmpty := value;
        if DisplayAsItem(loadState) {
          if value { log := log + [ItemRemoved(0)]; } else { log := log + [ItemInserted(0)]; }
        }
      }
    }
  }

  /** Which of the footer's three views `bind` makes visible. */
  datatype FooterViews = FooterViews(progress: bool, retryButton: bool, endText: bool)

  /** `LoadStateViewHolder.bind`: progress while loading, retry after an error, the end text at the end. */
  function Bind(s: LoadState): (v: FooterViews)
    ensures v.progress <==> s == Loading
    ensures v.retryButton <==> s.Error?
    ensures v.endText <==> s == End
    ensures !(v.progress && v.retryButton) && !(v.progress && v.endText) && !(v.retryButton && v.endText)
    ensures (v.progress || v.retryButton || v.endText) <==> DisplayAsItem(s)
  {
    FooterViews(s.Loading?, s.Error?, s.End?)
  }

  /**
   * The data source of the view model in this file: a missing key is page 0;
   * page 1 may fail with an I/O error (`fails` stands for the coin flip);
   * pages 0 to 3 hold 20 articles and name the following page, page 4 and
   * later are empty and last. `exceptionId` is the identity of the exception
   * a failing call throws.
   */
  function ArticleDataSourcePage(key: Option<int>, fails: bool, exceptionId: nat): (o: Outcome<int, ListItem>)
    ensures o.Failure? <==> key.GetOr(0) == 1 && fails
    ensures o.Failure? ==> o.error == IOException(exceptionId, "Mock network error!")
    ensures o.Success? && key.GetOr(0) < 4 ==>
      && o.result.nextKey == Some(key.GetOr(0) + 1)
      && |o.result.data| == 20
      && forall i :: 0 <= i < 20 ==> o.result.data[i] == ArticleItem(Article(key.GetOr(0) * 20 + i, "Article Title"))
    ensures o.Success? && key.GetOr(0) >= 4 ==> o.result == PagingResult([], None)
  {
    var currentPage := key.GetOr(0);
    if currentPage == 1 && fails then Failure(IOException(exceptionId, "Mock network error!"))
    else
      var isEnd := currentPage >= 4;
      var articles := if isEnd then [] else
        seq(20, i requires 0 <= i < 20 => ArticleItem(Article(currentPage * 20 + i, "Article Title")));
      Success(PagingResult(articles, if isEnd then None else Some(currentPage + 1)))
  }
}
