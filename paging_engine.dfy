/**
 * The paging engine: it holds the key of the next page, the accumulated items
 * and the current load state, and runs refresh, load-more and retry against a
 * page source.
 *
 * A load is split at the source call. `Begin` is the part before it (pick the
 * key, publish `Loading`); the caller then asks the source and hands what the
 * source produced to `Finish`, the part after it. Between the two the load
 * holds the engine's mutex and `loadJob` names it. A cancelled load is a
 * `Finish` with a `CancellationException`.
 */
module Engine {
  import opened Wrappers
  import opened Throwables
  import opened CoreLoadState
  import opened PagingResults

  /** The arguments of one call of the page source. */
  datatype Request<K> = Request(key: Option<K>, pageSize: int)

  /** A load that has called the source and awaits its answer. */
  datatype Job<K> = Job(isRefresh: bool, request: Request<K>)

  /** One call of the `PagingListener`. */
  datatype ListenerCall<V> = StateChanged(state: LoadState) | DataChanged(list: seq<V>)

  class PagingEngine<K, V> {
    const pageSize: int
    var currentKey: Option<K>
    var currentList: seq<V>
    var currentState: LoadState
    var loadJob: Option<Job<K>>

    /** Every call of the listener, oldest first. */
    ghost var events: seq<ListenerCall<V>>

    /** While a load awaits the source, the published state is that load's `Loading`. */
    ghost predicate Valid()
      reads this
    {
      loadJob.Some? ==> currentState == Loading(loadJob.value.isRefresh)
    }

    constructor (pageSize: int)
      ensures Valid() && this.pageSize == pageSize
      ensures currentKey == None && currentList == [] && currentState == NotLoading && loadJob == None
      ensures events == []
    {
      this.pageSize := pageSize;
      currentKey := None;
      currentList := [];
      currentState := NotLoading;
      loadJob := None;
      events := [];
    }

    /** `updateState`: record the state and tell the listener. */
    method UpdateState(state: LoadState)
      modifies this
      ensures currentState == state && events == old(events) + [StateChanged(state)]
      ensures currentKey == old(currentKey) && currentList == old(currentList)
      ensures loadJob == old(loadJob)
    {
      currentState := state;
      events := events + [StateChanged(state)];
    }

    /**
     * The start of `loadInternal`, once the mutex is held: a refresh asks for
     * the first page (no key), an append for `currentKey`; the state becomes
     * `Loading` of this load.
     */
    method Begin(isRefresh: bool) returns (request: Request<K>)
      requires Valid() && loadJob.None?
      modifies this
      ensures Valid()
      ensures request == Request(if isRefresh then None else old(currentKey), pageSize)
      ensures loadJob == Some(Job(isRefresh, request))
      ensures currentState == Loading(isRefresh) && events == old(events) + [StateChanged(Loading(isRefresh))]
      ensures currentKey == old(currentKey) && currentList == old(currentList)
    {
      var key := if isRefresh then None else currentKey;
      UpdateState(Loading(isRefresh));
      request := Request(key, pageSize);
      loadJob := Some(Job(isRefresh, request));
    }

    /**
     * The rest of `loadInternal`, given what the source produced. A page
     * replaces (refresh) or extends (append) the list, its next key becomes
     * `currentKey`, the listener gets a snapshot of the list and the state
     * becomes `End` or `NotLoading`. A cancellation changes nothing; any other
     * exception becomes `Error` of this load and leaves list and key alone.
     */
    method Finish(outcome: Outcome<K, V>)
      requires Valid() && loadJob.Some?
      modifies this
      ensures Valid() && loadJob == None
      ensures outcome.Success? ==>
        && currentList == (if old(loadJob.value.isRefresh) then [] else old(currentList)) + outcome.result.data
        && currentKey == outcome.result.nextKey
        && currentState == (if currentKey.None? then End else NotLoading)
        && events == old(events) + [DataChanged(currentList), StateChanged(currentState)]
      ensures outcome.Failure? && outcome.error.CancellationException? ==>
        && currentList == old(currentList) && currentKey == old(currentKey)
        && currentState == old(currentState)
        && events == old(events)
      ensures outcome.Failure? && !outcome.error.CancellationException? ==>
        && currentList == old(currentList) && currentKey == old(currentKey)
        && currentState == Error(outcome.error, old(loadJob.value.isRefresh))
        && events == old(events) + [StateChanged(currentState)]
    {
      var isRefresh := loadJob.value.isRefresh;
      loadJob := None;
      match outcome
      case Success(result) =>
        if isRefresh {
          currentList := [];
        }
        currentList := currentList + result.data;
        currentKey := result.nextKey;
        events := events + [DataChanged(currentList)];
        UpdateState(if currentKey.None? then End else NotLoading);
      case Failure(e) =>
        if !e.CancellationException? {
          UpdateState(Error(e, isRefresh));
        }
    }

    /**
     * `refresh`: cancel the load in flight, if any, then start a refresh,
     * which always asks for the first page.
     */
    method Refresh() returns (request: Request<K>)
      requires Valid()
      modifies this
      ensures Valid()
      ensures request == Request(None, pageSize) && loadJob == Some(Job(true, request))
      ensures currentState == Loading(true) && events == old(events) + [StateChanged(Loading(true))]
      ensures currentKey == old(currentKey) && currentList == old(currentList)
    {
      if loadJob.Some? {
        // `Finish` discards the cancellation, so which exception object it is does not matter.
        Finish(Failure(CancellationException(0)));
      }
      request := Begin(true);
    }

    /**
     * `loadMore`: refused while loading, at the end and after an error;
     * otherwise start an append with `currentKey`.
     */
    method LoadMore() returns (request: Option<Request<K>>)
      requires Valid()
      modifies this
      ensures Valid()
      ensures old(IsLoading(currentState) || IsEnd(currentState) || IsError(currentState)) ==>
        && request == None
        && currentState == old(currentState) && loadJob == old(loadJob)
        && events == old(events)
      ensures !old(IsLoading(currentState) || IsEnd(currentState) || IsError(currentState)) ==>
        && request == Some(Request(old(currentKey), pageSize))
        && loadJob == Some(Job(false, request.value))
        && currentState == Loading(false) && events == old(events) + [StateChanged(Loading(false))]
      ensures currentKey == old(currentKey) && currentList == old(currentList)
    {
      if IsLoading(currentState) || IsEnd(currentState) || IsError(currentState) {
        return None;
      }
      var r := Begin(false);
      request := Some(r);
    }

    /**
     * `retry`: nothing unless the state is `Error`; a failed refresh is
     * refreshed again, a failed append is loaded again with `currentKey`
     * directly, without the guard of `loadMore`.
     */
    method Retry() returns (request: Option<Request<K>>)
      requires Valid()
      modifies this
      ensures Valid()
      ensures !old(currentState).Error? ==>
        && request == None
        && currentState == old(currentState) && loadJob == old(loadJob)
        && events == old(events)
      ensures old(currentState).Error? ==>
        && var isRefresh := old(currentState).isRefresh;
        && request == Some(Request(if isRefresh then None else old(currentKey), pageSize))
        && loadJob == Some(Job(isRefresh, request.value))
        && currentState == Loading(isRefresh) && events == old(events) + [StateChanged(Loading(isRefresh))]
      ensures currentKey == old(currentKey) && currentList == old(currentList)
    {
      var state := currentState;
      if state.Error? {
        if state.isRefresh {
          var r := Refresh();
          request := Some(r);
        } else {
          var r := Begin(false);
          request := Some(r);
        }
      } else {
        request := None;
      }
    }
  }
}
