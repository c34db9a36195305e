/**
 * The demo app's newer load state, which keeps refresh and append states
 * apart, and the footer adapter that shows only append states and the end.
 */
module AppLoadStateAdapter {
  import opened Throwables
  import opened Notifications
  import AppPaging

  datatype LoadState =
    | RefreshLoading
    | RefreshError(error: AppPaging.PagingError)
    | AppendLoading
    | AppendError(error: AppPaging.PagingError)
    | End
    | NotLoading

  /** `is LoadState.Append`. */
  predicate IsAppend(s: LoadState) {
    s.AppendLoading? || s.AppendError?
  }

  /** `displayAsItem`: append states and the end are shown; refresh states and idle are not. */
  predicate DisplayAsItem(s: LoadState) {
    IsAppend(s) || s.End?
  }

  /** `getItemCount` of the adapter. */
  function FooterCount(s: LoadState, isDataEmpty: bool): (n: nat)
    ensures n <= 1
    ensures n == 1 <==> !isDataEmpty && (s.AppendLoading? || s.AppendError? || s.End?)
    ensures s.RefreshLoading? || s.RefreshError? || s.NotLoading? ==> n == 0
  {
    if !isDataEmpty && DisplayAsItem(s) then 1 else 0
  }

  /**
   * The notifications of the `loadState` setter, decided from the states
   * alone: an insert when the state becomes one the footer shows, a remove
   * when it stops being one, a change when it stays one; they announce the
   * change of the count the footer would have with data present.
   */
  function LoadStateEvents(previous: LoadState, value: LoadState): (events: seq<Notify>)
    ensures previous == value ==> events == []
    ensures previous != value && !DisplayAsItem(previous) && DisplayAsItem(value) ==> events == [ItemInserted(0)]
    ensures previous != value && DisplayAsItem(previous) && !DisplayAsItem(value) ==> events == [ItemRemoved(0)]
    ensures previous != value && DisplayAsItem(previous) && DisplayAsItem(value) ==> events == [ItemChanged(0)]
    ensures !DisplayAsItem(previous) && !DisplayAsItem(value) ==> events == []
    ensures Net(events) == FooterCount(value, false) - FooterCount(previous, false)
  {
    var relevantState := IsAppend(value) || value.End?;
    var oldRelevantState := IsAppend(previous) || previous.End?;
    if previous == value then []
    else if relevantState != oldRelevantState then
      (if relevantState then [ItemInserted(0)] else [ItemRemoved(0)])
    else if relevantState then [ItemChanged(0)]
    else []
  }

  /**
   * The notifications of the `isDataEmpty` setter: only while the state is
   * shown, a remove on becoming empty and an insert on becoming non-empty;
   * they always announce the change in item count.
   */
  function DataEmptyEvents(state: LoadState, previous: bool, value: bool): (events: seq<Notify>)
    ensures previous == value || !DisplayAsItem(state) ==> events == []
    ensures previous != value && DisplayAsItem(state) ==> events == [if value then ItemRemoved(0) else ItemInserted(0)]
    ensures Net(events) == FooterCount(state, value) - FooterCount(state, previous)
  {
    if previous != value && DisplayAsItem(state) then
      [if value then ItemRemoved(0) else ItemInserted(0)]
    else []
  }

  /**
   * An append failure replacing another append failure is a new state even
   * when both exceptions look alike: the footer row is rebound.
   */
  lemma RepeatedErrorRebinds(first: Throwable, second: Throwable)
    requires first != second
    ensures LoadStateEvents(AppendError(AppPaging.ToPagingError(first)), AppendError(AppPaging.ToPagingError(second)))
      == [ItemChanged(0)]
  {
    assert AppPaging.ToPagingError(first).cause != AppPaging.ToPagingError(second).cause;
  }

  /**
   * With no data the footer has no row, yet the `loadState` setter still
   * announces one: the notifications and the count disagree.
   */
  lemma NotifiesWhileEmpty()
    ensures FooterCount(NotLoading, true) == 0 && FooterCount(AppendLoading, true) == 0
    ensures LoadStateEvents(NotLoading, AppendLoading) == [ItemInserted(0)]
  {
  }

  class PagingLoadStateAdapter {
    var loadState: LoadState
    var isDataEmpty: bool
    /** Every notification sent so far, oldest first. */
    ghost var log: seq<Notify>

    /** `getItemCount`. */
    function ItemCount(): nat
      reads this
    {
      FooterCount(loadState, isDataEmpty)
    }

    /** The notifications sent so far add up to the current item count. */
    ghost predicate Synced()
      reads this
    {
      Net(log) == ItemCount()
    }

    constructor ()
      ensures loadState == NotLoading && isDataEmpty && log == [] && Synced()
    {
      loadState := NotLoading;
      isDataEmpty := true;
      log := [];
    }

    /** The `loadState` setter; its notifications match the count only while there is data. */
    method SetLoadState(value: LoadState)
      modifies this
      ensures loadState == value && isDataEmpty == old(isDataEmpty)
      ensures log == old(log) + LoadStateEvents(old(loadState), value)
      ensures !isDataEmpty ==> Net(log) - Net(old(log)) == ItemCount() - old(ItemCount())
      ensures !isDataEmpty && old(Synced()) ==> Synced()
    {
      NetAppend(log, LoadStateEvents(loadState, value));
      var relevantState := IsAppend(value) || value.End?;
      var oldRelevantState := IsAppend(loadState) || loadState.End?;
      if loadState != value {
        loadState := value;
        if relevantState != oldRelevantState {
          if relevantState { log := log + [ItemInserted(0)]; } else { log := log + [ItemRemoved(0)]; }
        } else if relevantState {
          log := log + [ItemChanged(0)];
        }
      }
    }

    /** The `isDataEmpty` setter; its notifications always match the count. */
    method SetIsDataEmpty(value: bool)
      modifies this
      ensures isDataEmpty == value && loadState == old(loadState)
      ensures log == old(log) + DataEmptyEvents(old(loadState), old(isDataEmpty), value)
      ensures Net(log) - Net(old(log)) == ItemCount() - old(ItemCount())
      ensures old(Synced()) ==> Synced()
    {
      NetAppend(log, DataEmptyEvents(loadState, isDataEmpty, value));
      if isDataEmpty != value {
        isDataEmpty := value;
        if DisplayAsItem(loadState) {
          if value { log := log + [ItemRemoved(0)]; } else { log := log + [ItemInserted(0)]; }
        }
      }
    }
  }

  /**
   * `LoadStateViewHolder.bind`: the progress bar for an append in flight, the
   * retry button for a failed append, the end text at the end; at most one.
   */
  function Bind(s: LoadState): (v: AppPaging.FooterViews)
    ensures v.progress <==> s == AppendLoading
    ensures v.retryButton <==> s.AppendError?
    ensures v.endText <==> s == End
    ensures !(v.progress && v.retryButton) && !(v.progress && v.endText) && !(v.retryButton && v.endText)
    ensures (v.progress || v.retryButton || v.endText) <==> DisplayAsItem(s)
  {
    AppPaging.FooterViews(s.AppendLoading?, s.AppendError?, s.End?)
  }
}
