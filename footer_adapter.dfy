/**
 * The library's footer adapter, which shows one row for `Loading`, `Error`
 * and `End` below the list, and the binder that feeds it and decides when an
 * attached row should trigger a prefetch.
 */
module CoreFooter {
  import opened Wrappers
  import opened Throwables
  import opened CoreLoadState
  import opened Notifications

  /** `shouldDisplay`: every state but `NotLoading` shows the footer row. */
  predicate ShouldDisplay(s: LoadState) {
    s.Loading? || s.Error? || s.End?
  }

  /** `getItemCount` for a footer in state `s`. */
  function FooterCount(s: LoadState): (n: nat)
    ensures n <= 1
    ensures n == 1 <==> ShouldDisplay(s)
    ensures n == 0 <==> s == NotLoading
  {
    if ShouldDisplay(s) then 1 else 0
  }

  /**
   * The notifications the `state` setter sends when `previous` is replaced by
   * `value`: none for an equal value; an insert when the row appears, a remove
   * when it disappears, a change when it stays; always announcing exactly the
   * change in item count.
   */
  function StateChangeEvents(previous: LoadState, value: LoadState): (events: seq<Notify>)
    ensures previous == value ==> events == []
    ensures previous != value && !ShouldDisplay(previous) && ShouldDisplay(value) ==> events == [ItemInserted(0)]
    ensures previous != value && ShouldDisplay(previous) && !ShouldDisplay(value) ==> events == [ItemRemoved(0)]
    ensures previous != value && ShouldDisplay(previous) && ShouldDisplay(value) ==> events == [ItemChanged(0)]
    ensures !ShouldDisplay(previous) && !ShouldDisplay(value) ==> events == []
    ensures Net(events) == FooterCount(value) - FooterCount(previous)
  {
    if previous == value then []
    else
      var oldShow := ShouldDisplay(previous);
      var newShow := ShouldDisplay(value);
      if oldShow != newShow then
        (if newShow then [ItemInserted(0)] else [ItemRemoved(0)])
      else if newShow then [ItemChanged(0)]
      else []
  }

  class PagingFooterAdapter {
    var state: LoadState
    /** Every notification sent so far, oldest first. */
    ghost var log: seq<Notify>

    /** The notifications sent so far add up to the current item count. */
    ghost predicate Valid()
      reads this
    {
      Net(log) == ItemCount()
    }

    /** `getItemCount`. */
    function ItemCount(): nat
      reads this
    {
      FooterCount(state)
    }

    constructor ()
      ensures Valid() && state == NotLoading && log == []
    {
      state := NotLoading;
      log := [];
    }

    /** The `state` setter. */
    method SetState(value: LoadState)
      requires Valid()
      modifies this
      ensures Valid()
      ensures state == value
      ensures log == old(log) + StateChangeEvents(old(state), value)
      ensures Net(log) - Net(old(log)) == ItemCount() - old(ItemCount())
    {
      var events := StateChangeEvents(state, value);
      NetAppend(log, events);
      if state != value {
        var oldShow := ShouldDisplay(state);
        var newShow := ShouldDisplay(value);
        state := value;
        if oldShow != newShow {
          if newShow { log := log + [ItemInserted(0)]; } else { log := log + [ItemRemoved(0)]; }
        } else if newShow {
          log := log + [ItemChanged(0)];
        }
      }
    }
  }

  /**
   * A failure that replaces another failure is a new state even when both
   * exceptions look alike, since exceptions compare by identity: the shown
   * row is rebound.
   */
  lemma RepeatedErrorRebinds(first: Throwable, second: Throwable, isRefresh: bool)
    requires first != second
    ensures StateChangeEvents(Error(first, isRefresh), Error(second, isRefresh)) == [ItemChanged(0)]
  {
  }

  /**
   * The prefetch rule of `PagingBinder.attach`: an attached row at `pos`
   * triggers a load when it is within `prefetchDistance` rows of the last one;
   * a missing adapter counts as no rows.
   */
  function PrefetchTriggered(pos: int, adapterCount: Option<int>, prefetchDistance: int): (r: bool)
    ensures adapterCount.None? ==> (r <==> pos >= -1 - prefetchDistance)
    ensures adapterCount.Some? ==> (r <==> pos >= adapterCount.value - 1 - prefetchDistance)
  {
    var count := adapterCount.GetOr(0);
    pos >= count - 1 - prefetchDistance
  }

  /** A row after a triggering row triggers too. */
  lemma PrefetchMonotone(pos: int, pos': int, adapterCount: Option<int>, prefetchDistance: int)
    requires pos <= pos' && PrefetchTriggered(pos, adapterCount, prefetchDistance)
    ensures PrefetchTriggered(pos', adapterCount, prefetchDistance)
  {
  }

  /** With a non-negative prefetch distance the last row always triggers. */
  lemma LastRowTriggers(count: int, prefetchDistance: int)
    requires prefetchDistance >= 0
    ensures PrefetchTriggered(count - 1, Some(count), prefetchDistance)
  {
  }

  /** `PagingBinder.bindState`: the footer takes exactly the given state. */
  method BindState(footer: PagingFooterAdapter, state: LoadState)
    requires footer.Valid()
    modifies footer
    ensures footer.Valid() && footer.state == state
    ensures footer.log == old(footer.log) + StateChangeEvents(old(footer.state), state)
  {
    footer.SetState(state);
  }
}
