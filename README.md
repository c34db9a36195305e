# PagingHelper — a Dafny model of the paging state machines

PagingHelper is an Android paging library with a demo app. This project models
its state machines and proves their properties:

- **The paging engine** (`paging-core`): it keeps the key of the next page, the
  accumulated list and a `LoadState`. It runs `refresh`, `loadMore` and `retry`
  against a page source under a mutex, and tells a listener about every state
  and every list snapshot.
- **The core's small pieces**: the `LoadState` helpers, `toPagingResult`, the
  page-source factory and its `map` decorator, the footer adapter's insert,
  remove and change notifications, and the binder's prefetch trigger.
- **The app's own `PagingHelper`**, which is a second, self-contained helper. It
  has its own `LoadState` and `PagingError`, a placeholder list shown on
  refresh, a debounce guard, a mutex and a remembered failed request for
  `retry`. The model also covers that file's footer adapter, its scroll-to-load
  and span-size logic, and the mock data source in that file.
- **The app's UI helpers**: the footer adapter for the app's refresh/append
  `LoadState`, the scroll listener's load-more condition and the grid's
  span-size lookup.
- **The flow-data sample**: the Flow-based data source adapter, the view
  model's page source, its selection set, and how the selection decorates the
  list.
- **The article sample's page source**, and end-to-end runs of the engine and
  of the app helper over it.

## Modelling decisions

- The engine's `loadInternal` runs inside the mutex and is suspended at the
  source call, so it is split at that call into two steps:
  - `Engine.PagingEngine.Begin` picks the key and publishes `Loading`;
  - `Engine.PagingEngine.Finish` takes what the source produced.

  `loadJob` names the load between the two steps. A cancelled load is a
  `Finish` with a `CancellationException`: that exception is rethrown, so
  state, list and key stay as they were.
- The app helper's mutex is a first-in-first-out queue `waiting` plus the
  request holding the lock, `running`:
  - `PerformLoad` applies the guard before the lock (line 144);
  - `Acquire` grants the lock and applies the guard under the lock (line 147);
  - `Finish` releases the lock with the data source's result.

  Kotlin's `runCatching` catches every throwable, cancellation included, so
  every failure becomes `Error` there.
- Listener calls and adapter notifications are ghost logs:
  - `events` on the engine, one `ListenerCall` per call of `onStateChanged`
    or `onDataChanged`, in the order the listener receives them;
  - `log` on the adapters.

  `Notifications.Net` counts inserts minus removes, which is how the change in
  item count announced to the RecyclerView is measured.
- Page sources are total functions from a key and a page size to an
  `Outcome`: a `PagingResult` or a thrown `Throwable`.
  - Kotlin compares exceptions by identity, and so do the data classes that
    hold them (`LoadState.Error`, `PagingError`). Each exception therefore
    carries an `id` standing for its identity; a `CancellationException`
    does too. A source that may throw takes
    the identity of the exception it would throw as the parameter
    `exceptionId`. Two failures in a row are then two different states, and
    the footer setters' `field != value` guards see them as a change.
  - The coin flip `Random.nextBoolean()` is the parameter `fails`.
  - A Flow's first emission, or the exception it throws, is the parameter
    `ApiResponse`.
- `ViewExtensions` models `app/.../ui/ViewExtensions.kt` and its copy at lines
  392-500 of `app/.../PagingHelper.kt`.
  - `addLoadMoreListener` is the same in both copies, and `ShouldLoadMore` models
    both.
  - In the span-size lookup, `it is PagingLoadStateAdapter` names a different
    class in each copy: the footer adapter of the copy's own package. That is
    `ui/PagingLoadStateAdapter.kt` for the first copy and the adapter declared
    in `PagingHelper.kt` for the second. `GetSpanSize` takes that class as a
    parameter, `FooterClass`. A concat-adapter child is one of the two footer adapters
    or a data adapter.
- `app/.../model/PageResult.kt` is represented by `PagingResults.PagingResult`,
  which has the same two fields. `AppPaging.PagingError` stands for both
  copies of `PagingError`, in `PagingHelper.kt` and in `model/PagingError.kt`.

## Model

| member | source | states |
|---|---|---|
| CoreLoadState.ErrorOrNull | paging-core/src/main/java/com/paging/core/model/LoadState.kt:40-41 | an error is returned exactly for `Error`, and it is that state's throwable |
| CoreLoadState.OnAppendError | paging-core/src/main/java/com/paging/core/model/LoadState.kt:46-49 | the block gets an error exactly for an append `Error` (not a refresh one), and it is that state's throwable |
| CoreLoadState.IsRefreshExactly | paging-core/src/main/java/com/paging/core/model/LoadState.kt:22-23 | `isRefresh` holds exactly for `Loading(true)` and a refresh `Error`, never for `NotLoading` or `End` |
| CoreLoadState.ClassifiersExclusive | paging-core/src/main/java/com/paging/core/model/LoadState.kt:6-35 | `isLoading`, `isError` and `isEnd` each hold for exactly their variant, no two hold together, and none holds exactly for `NotLoading` |
| PagingResults.ToPagingResult | paging-core/src/main/java/com/paging/core/model/PagingResult.kt:12-15 | the data is the list itself; there is a next key exactly when the list is non-empty and at least a page long, and then it is `currentKey + 1` |
| SourceExtension.PagingSourceOf | paging-core/src/main/java/com/paging/core/source/SourceExtension.kt:8-15 | a missing key is replaced by the initial key; a given key reaches the loader unchanged |
| SourceExtension.MapSeq | paging-core/src/main/java/com/paging/core/source/SourceExtension.kt:24 | `List.map`: same length, and each element is the transform of the element at the same index |
| SourceExtension.Map | paging-core/src/main/java/com/paging/core/source/SourceExtension.kt:20-25 | the decorated source asks the original with the same key and page size; it keeps the next key, transforms every item in place, and passes a failure through unchanged |
| SourceExtension.MapSeqIdentity | paging-core/src/main/java/com/paging/core/source/SourceExtension.kt:24 | mapping the identity over a list gives the list back |
| SourceExtension.MapIdentity | paging-core/src/main/java/com/paging/core/source/SourceExtension.kt:20-25 | `map` with the identity answers every call exactly as the original source does |
| Engine.PagingEngine.constructor | paging-core/src/main/java/com/paging/core/engine/PagingEngine.kt:28-41 | a new engine has no key, an empty list, state `NotLoading`, no job and no listener calls |
| Engine.PagingEngine.UpdateState | paging-core/src/main/java/com/paging/core/engine/PagingEngine.kt:108-114 | the state is recorded and passed to `onStateChanged`; nothing else changes |
| Engine.PagingEngine.Begin | paging-core/src/main/java/com/paging/core/engine/PagingEngine.kt:74-77 | a refresh asks for no key, an append for the current key, at the configured page size; the state becomes `Loading(isRefresh)` and is announced; list and key are untouched |
| Engine.PagingEngine.Finish | paging-core/src/main/java/com/paging/core/engine/PagingEngine.kt:79-104 | on success the list is cleared (refresh) or kept (append) and the page is appended; the next key is stored; the listener gets the new list first and the new state after it; the state is `End` exactly when there is no next key, otherwise `NotLoading`. A cancellation changes nothing. Any other exception makes the state `Error(e, isRefresh)`, announces only that state, and leaves list and key alone |
| Engine.PagingEngine.Refresh | paging-core/src/main/java/com/paging/core/engine/PagingEngine.kt:43-46 | a pending load is cancelled without effect; a refresh starts and asks for the first page whatever the current key; the state is `Loading(true)` |
| Engine.PagingEngine.LoadMore | paging-core/src/main/java/com/paging/core/engine/PagingEngine.kt:48-52 | while loading, at the end or after an error nothing happens; otherwise an append starts with the current key |
| Engine.PagingEngine.Retry | paging-core/src/main/java/com/paging/core/engine/PagingEngine.kt:54-68 | outside `Error` nothing happens; after a refresh error it refreshes; after an append error it starts an append with the current key, bypassing `loadMore`'s error guard |
| CoreFooter.FooterCount | paging-core/src/main/java/com/paging/core/ui/PagingFooterAdapter.kt:26-29 | the footer has at most one row; it has one exactly when `shouldDisplay` holds, which is every state but `NotLoading` |
| CoreFooter.StateChangeEvents | paging-core/src/main/java/com/paging/core/ui/PagingFooterAdapter.kt:12-24 | no notification for an equal state; insert when the footer appears, remove when it disappears, change when it stays shown; the inserts minus removes equal the change in item count |
| CoreFooter.RepeatedErrorRebinds | paging-core/src/main/java/com/paging/core/ui/PagingFooterAdapter.kt:14-21 | an `Error` replaced by an `Error` holding a different exception, however alike the two look, makes the setter send a change notification |
| CoreFooter.PagingFooterAdapter.constructor | paging-core/src/main/java/com/paging/core/ui/PagingFooterAdapter.kt:12 | a new footer is `NotLoading`, has sent nothing, and its notifications agree with its count |
| CoreFooter.PagingFooterAdapter.SetState | paging-core/src/main/java/com/paging/core/ui/PagingFooterAdapter.kt:12-24 | the state is set and exactly those notifications are sent; the notifications sent so far keep adding up to the item count |
| CoreFooter.PrefetchTriggered | paging-core/src/main/java/com/paging/core/ui/PagingBinder.kt:21-24 | load-more fires exactly when the attached position is at least `count - 1 - prefetchDistance`, with a missing adapter counting as zero items |
| CoreFooter.PrefetchMonotone | paging-core/src/main/java/com/paging/core/ui/PagingBinder.kt:24 | any later position than one that fires also fires |
| CoreFooter.LastRowTriggers | paging-core/src/main/java/com/paging/core/ui/PagingBinder.kt:24 | attaching the last row always fires when the prefetch distance is not negative |
| CoreFooter.BindState | paging-core/src/main/java/com/paging/core/ui/PagingBinder.kt:31-33 | `bindState` is the footer's setter and keeps its notifications consistent with its count |
| AppPaging.ToPagingError | app/src/main/java/com/demo/pagehelper/PagingHelper.kt:82-89 | an I/O exception becomes `Network`, and every other throwable becomes `Unknown`; the cause is kept; `Server` is never produced |
| AppPaging.PagingHelper.constructor | app/src/main/java/com/demo/pagehelper/PagingHelper.kt:114-128 | no items, `NotLoading`, the next key is the data source's initial key, no failed request, lock free |
| AppPaging.PagingHelper.PerformLoad | app/src/main/java/com/demo/pagehelper/PagingHelper.kt:142-146 | an append issued while loading is dropped; every other request queues for the mutex; nothing else changes |
| AppPaging.PagingHelper.Refresh | app/src/main/java/com/demo/pagehelper/PagingHelper.kt:131-134 | the placeholders, when a generator is given, replace the items at once; then a refresh with the initial key is queued |
| AppPaging.PagingHelper.LoadMore | app/src/main/java/com/demo/pagehelper/PagingHelper.kt:137 | an append with the stored next key is queued exactly when the state is not `Loading` |
| AppPaging.PagingHelper.Retry | app/src/main/java/com/demo/pagehelper/PagingHelper.kt:140 | the remembered failed request, type and key, is issued again; with none remembered nothing happens |
| AppPaging.PagingHelper.Acquire | app/src/main/java/com/demo/pagehelper/PagingHelper.kt:146-149 | the first queued request gets the mutex; an append is refused while loading or at the end but not after an error; otherwise the state becomes `Loading` |
| AppPaging.PagingHelper.Finish | app/src/main/java/com/demo/pagehelper/PagingHelper.kt:150-162 | on success the failed request is forgotten and the next key stored. After a refresh, or while placeholders are shown, the page replaces the items; otherwise it is appended. The state is `End` exactly when there is no next key. On any failure the request is remembered for `retry`, the state is `Error` of the mapped error, and items and key are kept |
| AppPaging.FooterCount | app/src/main/java/com/demo/pagehelper/PagingHelper.kt:305-306 | one footer row exactly when there is data and the state is not `NotLoading` |
| AppPaging.LoadStateEvents | app/src/main/java/com/demo/pagehelper/PagingHelper.kt:281-293 | the insert, remove or change notifications of the `loadState` setter; they match the change in count of a footer with data present |
| AppPaging.RepeatedErrorRebinds | app/src/main/java/com/demo/pagehelper/PagingHelper.kt:283-291 | an `Error` replaced by the `Error` of a different exception is a change, and the setter sends a change notification |
| AppPaging.DataEmptyEvents | app/src/main/java/com/demo/pagehelper/PagingHelper.kt:295-303 | the `isDataEmpty` setter notifies only while the state is displayed: a remove on becoming empty, an insert on becoming non-empty; they always match the change in count |
| AppPaging.PagingLoadStateAdapter.constructor | app/src/main/java/com/demo/pagehelper/PagingHelper.kt:281-303 | a new adapter is `NotLoading` with no data and its notifications agree with its count |
| AppPaging.PagingLoadStateAdapter.SetLoadState | app/src/main/java/com/demo/pagehelper/PagingHelper.kt:281-293 | the state is set and exactly `LoadStateEvents` is sent; while there is data, the notifications keep matching the count |
| AppPaging.PagingLoadStateAdapter.SetIsDataEmpty | app/src/main/java/com/demo/pagehelper/PagingHelper.kt:295-303 | the flag is set and exactly `DataEmptyEvents` is sent; the notifications keep matching the count |
| AppPaging.Bind | app/src/main/java/com/demo/pagehelper/PagingHelper.kt:321-326 | progress while loading, retry button after an error, end text at the end: at most one is visible, and one is visible exactly when the footer is displayed |
| AppPaging.ArticleDataSourcePage | app/src/main/java/com/demo/pagehelper/PagingHelper.kt:337-349 | a missing key is page 0; only page 1 can fail, with an I/O error of the given identity and the mock message; pages 0-3 hold the 20 articles `page*20+i` titled "Article Title" and name the next page; page 4 on is empty and last |
| AppLoadStateAdapter.FooterCount | app/src/main/java/com/demo/pagehelper/ui/PagingLoadStateAdapter.kt:46-47 | one footer row exactly when there is data and the state is an append state or `End`; refresh states and `NotLoading` never show it |
| AppLoadStateAdapter.LoadStateEvents | app/src/main/java/com/demo/pagehelper/ui/PagingLoadStateAdapter.kt:20-34 | the notifications of the `loadState` setter, driven by the relevant states; between two states the footer never shows (refresh states and `NotLoading`) nothing is sent; they match the change in count of a footer with data present |
| AppLoadStateAdapter.RepeatedErrorRebinds | app/src/main/java/com/demo/pagehelper/ui/PagingLoadStateAdapter.kt:26-32 | an append error replaced by the append error of a different exception is a change, and the setter sends a change notification |
| AppLoadStateAdapter.DataEmptyEvents | app/src/main/java/com/demo/pagehelper/ui/PagingLoadStateAdapter.kt:36-44 | the `isDataEmpty` setter's notifications; they always match the change in count |
| AppLoadStateAdapter.NotifiesWhileEmpty | app/src/main/java/com/demo/pagehelper/ui/PagingLoadStateAdapter.kt:20-47 | with no data, going from `NotLoading` to an append load sends an insert although the count stays zero |
| AppLoadStateAdapter.PagingLoadStateAdapter.constructor | app/src/main/java/com/demo/pagehelper/ui/PagingLoadStateAdapter.kt:20-36 | a new adapter is `NotLoading` with no data and its notifications agree with its count |
| AppLoadStateAdapter.PagingLoadStateAdapter.SetLoadState | app/src/main/java/com/demo/pagehelper/ui/PagingLoadStateAdapter.kt:20-34 | the state is set and exactly `LoadStateEvents` is sent; while there is data, the notifications keep matching the count |
| AppLoadStateAdapter.PagingLoadStateAdapter.SetIsDataEmpty | app/src/main/java/com/demo/pagehelper/ui/PagingLoadStateAdapter.kt:36-44 | the flag is set and exactly `DataEmptyEvents` is sent; the notifications keep matching the count |
| AppLoadStateAdapter.Bind | app/src/main/java/com/demo/pagehelper/ui/PagingLoadStateAdapter.kt:62-67 | progress on an append load, retry on an append error, end text at the end: at most one is visible, and one is visible exactly when the footer is displayed |
| ViewExtensions.MaxOrNull | app/src/main/java/com/demo/pagehelper/ui/ViewExtensions.kt:69 | `maxOrNull`: absent exactly for an empty array; otherwise an element of it that no element exceeds |
| ViewExtensions.LastVisiblePosition | app/src/main/java/com/demo/pagehelper/ui/ViewExtensions.kt:59-74 | linear and grid layouts give their last visible position; staggered layouts give the largest over the spans, or `NO_POSITION` for none; other layouts give nothing |
| ViewExtensions.ShouldLoadMore | app/src/main/java/com/demo/pagehelper/ui/ViewExtensions.kt:53-87 | load-more fires exactly on a downward scroll with a supported layout, a real last position and a non-empty list, when that position is at least `itemCount - preloadOffset` |
| ViewExtensions.LastFooterIndex | app/src/main/java/com/demo/pagehelper/ui/ViewExtensions.kt:145 | `lastOrNull { it is PagingLoadStateAdapter }`: the index of the last child of the named footer class, with none after it; absent when there is none |
| ViewExtensions.GetSpanSize | app/src/main/java/com/demo/pagehelper/ui/ViewExtensions.kt:133-152 | a position spans the whole row exactly when it is the concat adapter's last position and the last child of the named footer class has a row; every other position, and every position without a concat adapter, spans one column |
| ViewExtensions.FooterSpansWhenShown | app/src/main/java/com/demo/pagehelper/ui/ViewExtensions.kt:145-151 | in this copy, with a data adapter followed by the `ui` footer with data, the last position is the footer's row exactly when the footer shows an append state or `End` |
| ViewExtensions.HelperFooterSpansWhenShown | app/src/main/java/com/demo/pagehelper/PagingHelper.kt:478-497 | in this copy, with a data adapter followed by the footer of `PagingHelper.kt` with data, the last position is the footer's row exactly when it shows `Loading`, `Error` or `End`; the `ui` footer is not recognised here, so every position spans one column |
| FlowData.FlowDataSourceAdapter.GetInitialKey | app/src/main/java/com/demo/pagehelper/data/FlowDataSourceAdapter.kt:19 | the first load uses page 0 |
| FlowData.FlowDataSourceAdapter.Request | app/src/main/java/com/demo/pagehelper/data/FlowDataSourceAdapter.kt:25-31 | the API is asked for the key's page, or page 0 without a key, at the adapter's page size |
| FlowData.FlowDataSourceAdapter.LoadPage | app/src/main/java/com/demo/pagehelper/data/FlowDataSourceAdapter.kt:24-44 | the first emission is the page's data; a short page is last, and any other names the next page; an exception of the flow passes through |
| FlowData.SourceRequest | app/src/main/java/com/demo/pagehelper/flowdata/FlowDataSourceViewModel.kt:24-25 | the view model's source asks for the key's page, or page 0, at the requested size |
| FlowData.ArticlePagingSource | app/src/main/java/com/demo/pagehelper/flowdata/FlowDataSourceViewModel.kt:21-38 | the page's data is returned; there is a next page exactly when the page is not short; a failure is rethrown unchanged |
| FlowData.SourcesAgree | app/src/main/java/com/demo/pagehelper/flowdata/FlowDataSourceViewModel.kt:21-38 | the view model's source and the data source adapter make the same request and give the same outcome for every key, size and API answer |
| FlowData.Toggled | app/src/main/java/com/demo/pagehelper/flowdata/FlowDataSourceViewModel.kt:72-80 | toggling removes a selected id, adds an unselected one, and leaves every other id as it was |
| FlowData.ToggleTwice | app/src/main/java/com/demo/pagehelper/flowdata/FlowDataSourceViewModel.kt:72-80 | toggling the same id twice restores the selection |
| FlowData.Items | app/src/main/java/com/demo/pagehelper/flowdata/FlowDataSourceViewModel.kt:50-60 | one selectable item per list item, in order, wrapping it; an article is selected exactly when its id is selected; a placeholder never is |
| FlowData.FlowDataSourceViewModel.constructor | app/src/main/java/com/demo/pagehelper/flowdata/FlowDataSourceViewModel.kt:47 | the selection starts empty |
| FlowData.FlowDataSourceViewModel.ToggleSelection | app/src/main/java/com/demo/pagehelper/flowdata/FlowDataSourceViewModel.kt:72-80 | the new selection is the old one with the id toggled |
| FlowData.FlowDataSourceViewModel.ClearSelections | app/src/main/java/com/demo/pagehelper/flowdata/FlowDataSourceViewModel.kt:82-84 | the selection becomes empty |
| ArticleSource.ArticlesFrom | app/src/main/java/com/demo/pagehelper/ArticleViewModel.kt:32-35 | `List(n)` of articles numbered consecutively from `start`, each titled "Article Title #id" |
| ArticleSource.ArticlesConcat | app/src/main/java/com/demo/pagehelper/ArticleViewModel.kt:32-35 | consecutive pages of articles join into one run of consecutive articles |
| ArticleSource.ArticlePage | app/src/main/java/com/demo/pagehelper/ArticleViewModel.kt:19-43 | a missing key is page 0; page 1 may fail with an I/O error of the given identity; pages 0-3 hold `pageSize` articles numbered `page*pageSize+i` and name the next page, and a negative size fails there; page 4 on is empty and last |
| Scenarios.RefreshThenFourLoadMores | app/src/main/java/com/demo/pagehelper/ArticleViewModel.kt:19-54 | with page size 20 and no failure, a refresh and four load-mores on the engine yield articles 0-79 in order and `End`, having asked for no key and then keys 1 to 4 |
| Scenarios.FailedAppendIsRetried | paging-core/src/main/java/com/paging/core/engine/PagingEngine.kt:48-68 | after a failed append on page 1, `loadMore` refuses and `retry` asks for page 1 again; the list then holds pages 0 and 1 |
| Scenarios.RefreshSupersedesRefresh | paging-core/src/main/java/com/paging/core/engine/PagingEngine.kt:43-46 | a refresh issued while another awaits the source cancels it: list, key and state come from the second refresh's outcome alone |
| Scenarios.HelperRetriesFailedAppend | app/src/main/java/com/demo/pagehelper/PagingHelper.kt:131-163 | with the app helper and its article source: the placeholders appear, the first page replaces them, a failed append on page 1 is remembered, and `retry` repeats exactly that append, leaving 40 articles and `NotLoading` |

## Left out

- Coroutines, threads, `Job` handles and the real mutex are not modelled. The engine's loads are the `Begin`/`Finish` steps; the app helper's lock is a queue of requests. The gap between `launch` and taking the lock is covered only because requests wait in `waiting`.
- Cancellation is modelled as cooperative only. A cancelled engine load ends in `Finish` with a `CancellationException`. A source that ignores cancellation and later produces a result anyway is not modelled.
- The engine catches `Exception`, not `Throwable`. Errors that are not exceptions are not distinguished: every `Throwable` here is an exception.
- Kotlin's 32-bit `Int` is not modelled. Keys, page numbers, article ids and positions are unbounded integers, so `currentKey + 1` and `page * pageSize + i` do not wrap.
- The app's `PagingHelper` is modelled for `ListItem` values only. Its generic `T` matters only in the `it is ListItem.Placeholder` test.
- The placeholder generator is modelled by the list it returns.
- Logging, `BuildConfig.DEBUG`, `delay`, the coin flip and the `ApiService` flow are left out or made parameters: `fails` and `ApiResponse`.
- `PagingFooterAdapter.shouldDisplay` is `protected open`. Only its default is modelled; `AppPagingFooterAdapter` is not part of this model.
- View holders, layout inflation, view visibility, `isFullSpan` and the rest of the UI rendering are left out. `Bind` gives the three visibility flags only.
- The listener and `StateFlow` plumbing, `FlowPaging`, the builders and DSL, `PagingCompat`, `LayoutManagerExtension` are not part of this model. The same goes for scroll-listener registration and lifecycle handling, and for `combine`/`stateIn`.
- `PagingBinder.attach` is modelled only through its prefetch condition, `CoreFooter.PrefetchTriggered`. Building the concat adapter and registering the listener are not modelled.
- ViewExtensions.GetSpanSize: the concat adapter's item count is modelled as the sum of its children's counts. A child is one of the two footer adapters or a plain data adapter.
- The engine rethrows a cancellation, so `Finish` changes nothing for it. `Engine.PagingEngine.Refresh` discards the pending load with a `CancellationException` of identity 0; which identity it has cannot matter. The app helper's `runCatching` keeps a cancellation as `Error(Unknown(e))` like any other throwable, and that is what `AppPaging.PagingHelper.Finish` states.
- The flow-data view model's `PagingConfig` (page size 20, prefetch distance 20) is not modelled. Its page source takes the page size as a parameter, as the engine passes it.
- AppPaging.PagingLoadStateAdapter.SetLoadState: the notifications are proved to match the item count only while `isDataEmpty` is false. With no data, the setter still notifies although the count stays zero.
- AppLoadStateAdapter.PagingLoadStateAdapter.SetLoadState: the notifications are proved to match the item count only while `isDataEmpty` is false. `AppLoadStateAdapter.NotifiesWhileEmpty` shows that with no data an insert is sent although the count stays zero.
