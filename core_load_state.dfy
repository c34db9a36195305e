/**
 * The paging library's load state: one sealed union with four variants, and
 * the read-only helpers the UI uses to query it.
 */
module CoreLoadState {
  import opened Wrappers
  import opened Throwables

  /** Idle, finished, loading (refresh or append) or failed (refresh or append). */
  datatype LoadState =
    | NotLoading
    | End
    | Loading(isRefresh: bool)
    | Error(error: Throwable, isRefresh: bool)

  /** True while a load of either kind is in flight. */
  predicate IsLoading(s: LoadState) {
    s.Loading?
  }

  /** True when the state belongs to a refresh (a refresh in flight or a failed refresh). */
  predicate IsRefresh(s: LoadState) {
    (s.Loading? && s.isRefresh) || (s.Error? && s.isRefresh)
  }

  predicate IsError(s: LoadState) {
    s.Error?
  }

  predicate IsEnd(s: LoadState) {
    s.End?
  }

  /** The failure carried by an `Error` state, and nothing for any other state. */
  function ErrorOrNull(s: LoadState): (r: Option<Throwable>)
    ensures r.Some? <==> s.Error?
    ensures r.Some? ==> r.value == s.error
  {
    if s.Error? then Some(s.error) else None
  }

  /**
   * `onAppendError(block)`: the argument the block is run with, or `None` when
   * the block is not run.
   */
  function OnAppendError(s: LoadState): (r: Option<Throwable>)
    ensures r.Some? <==> (s.Error? && !s.isRefresh)
    ensures r.Some? ==> r.value == s.error
  {
    match s
    case Error(e, isRefresh) => if isRefresh then None else Some(e)
    case _ => None
  }

  /** `isRefresh` holds exactly for a refresh in flight and a failed refresh. */
  lemma IsRefreshExactly(s: LoadState)
    ensures IsRefresh(s) <==> (s == Loading(true) || (s.Error? && s.isRefresh))
    ensures s == NotLoading || s == End ==> !IsRefresh(s)
  {
  }

  /**
   * Each classifying helper holds for exactly its variant; no two hold
   * together, and none holds for `NotLoading`.
   */
  lemma ClassifiersExclusive(s: LoadState)
    ensures IsLoading(s) <==> s.Loading?
    ensures IsError(s) <==> s.Error?
    ensures IsEnd(s) <==> s == End
    ensures !(IsLoading(s) && IsError(s)) && !(IsLoading(s) && IsEnd(s)) && !(IsError(s) && IsEnd(s))
    ensures s == NotLoading <==> !IsLoading(s) && !IsError(s) && !IsEnd(s)
  {
  }
}
