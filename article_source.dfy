/**
 * The mock page source of the app's article view model: four pages of
 * numbered articles followed by an empty last page, where page 1 may fail.
 */
module ArticleSource {
  import opened Wrappers
  import opened Throwables
  import opened PagingResults
  import opened ListItems

  /** The page size the view model configures. */
  const ArticlePageSize: int := 20

  /** The article numbered `id`, with the title the source gives it. */
  function NumberedArticle(id: int): ListItem {
    ArticleItem(Article(id, "Article Title #" + IntToString(id)))
  }

  /** The `n` articles numbered from `start` on, in order. */
  function ArticlesFrom(start: int, n: nat): (r: seq<ListItem>)
    ensures |r| == n
    ensures forall i :: 0 <= i < n ==> r[i] == NumberedArticle(start + i)
  {
    seq(n, i requires 0 <= i < n => NumberedArticle(start + i))
  }

  /** Two runs of consecutive articles that meet form one run. */
  lemma ArticlesConcat(start: int, n: nat, m: nat)
    ensures ArticlesFrom(start, n) + ArticlesFrom(start + n, m) == ArticlesFrom(start, n + m)
  {
    var a, b, c := ArticlesFrom(start, n), ArticlesFrom(start + n, m), ArticlesFrom(start, n + m);
    forall i | 0 <= i < n + m
      ensures (a + b)[i] == c[i]
    {
      if i >= n {
        assert (a + b)[i] == b[i - n] == NumberedArticle(start + n + (i - n));
      }
    }
    assert a + b == c;
  }

  /**
   * One load of `articlePagingSource`. A missing key is page 0. On page 1 the
   * source may throw an I/O error (`fails` stands for the coin flip). Pages
   * 0 to 3 hold `pageSize` articles numbered `page * pageSize + i` and name the
   * following page; page 4 and later are empty and last. A negative page size
   * makes the list construction throw. `exceptionId` is the identity of the
   * exception this call throws, if it throws one.
   */
  function ArticlePage(key: Option<int>, pageSize: int, fails: bool, exceptionId: nat): (o: Outcome<int, ListItem>)
    ensures var page := key.GetOr(0);
      o.Failure? <==> (page == 1 && fails) || (page < 4 && pageSize < 0)
    ensures o.Failure? && key.GetOr(0) == 1 && fails ==> o.error == IOException(exceptionId, "Mock network error!")
    ensures o.Failure? ==> o.error.id == exceptionId
    ensures var page := key.GetOr(0);
      o.Success? && page < 4 ==>
        o.result == PagingResult(ArticlesFrom(page * pageSize, pageSize), Some(page + 1))
    ensures o.Success? && key.GetOr(0) >= 4 ==> o.result == PagingResult([], None)
  {
    var currentPage := key.GetOr(0);
    if currentPage == 1 && fails then Failure(IOException(exceptionId, "Mock network error!"))
    else
      var isEnd := currentPage >= 4;
      if isEnd then Success(PagingResult([], None))
      else if pageSize < 0 then Failure(OtherException(exceptionId, "Negative size"))
      else Success(PagingResult(ArticlesFrom(currentPage * pageSize, pageSize), Some(currentPage + 1)))
  }
}
