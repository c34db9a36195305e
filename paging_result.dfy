/** The page a source returns, and the rule that builds one from a list of integers-keyed items. */
module PagingResults {
  import opened Wrappers
  import opened Throwables

  /** One page of data and the key of the next page; no key means there are no more pages. */
  datatype PagingResult<K, V> = PagingResult(data: seq<V>, nextKey: Option<K>)

  /** What one call of a page source produces: a page, or the exception it threw. */
  datatype Outcome<K, V> = Success(result: PagingResult<K, V>) | Failure(error: Throwable)

  /**
   * `list.toPagingResult(currentKey, pageSize)`: the list itself is the page; a
   * short or empty page is the last one, otherwise the next key is the
   * following page number.
   */
  function ToPagingResult<T>(list: seq<T>, currentKey: int, pageSize: int): (r: PagingResult<int, T>)
    ensures r.data == list
    ensures |list| < pageSize ==> r.nextKey == None
    ensures list == [] ==> r.nextKey == None
    ensures r.nextKey.Some? <==> (|list| >= pageSize && list != [])
    ensures r.nextKey.Some? ==> r.nextKey.value == currentKey + 1
  {
    var nextKey := if |list| < pageSize || |list| == 0 then None else Some(currentKey + 1);
    PagingResult(list, nextKey)
  }
}
