/**
 * The demo app's list entries: an article, or a placeholder row shown while
 * the first page loads. The app declares this union twice, in identical form;
 * both are this one.
 */
module ListItems {

  datatype Article = Article(id: int, title: string)

  datatype ListItem = ArticleItem(article: Article) | Placeholder

  /** Whether any entry of the list is a placeholder: Kotlin's `any { it is Placeholder }`. */
  predicate HasPlaceholder(items: seq<ListItem>) {
    exists i :: 0 <= i < |items| && items[i].Placeholder?
  }

  /** A decimal digit. */
  function DigitChar(d: int): char
    requires 0 <= d < 10
  {
    "0123456789"[d]
  }

  /** Decimal notation of a natural number. */
  function NatToString(n: nat): string
    decreases n
  {
    if n < 10 then [DigitChar(n)] else NatToString(n / 10) + [DigitChar(n % 10)]
  }

  /** Kotlin's string template `"$n"` for an integer. */
  function IntToString(n: int): string {
    if n < 0 then "-" + NatToString(-n) else NatToString(n)
  }
}
