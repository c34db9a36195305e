/**
 * Page sources and the two combinators over them: the factory that supplies an
 * initial key, and the `map` decorator that transforms every loaded item.
 */
module SourceExtension {
  import opened Wrappers
  import opened PagingResults

  /**
   * A page source: given a key (none for the first page) and a page size, it
   * yields a page or an exception. The suspension of the Kotlin original is not
   * modelled; a source is a function of its arguments.
   */
  type PagingSource<!K, V> = (Option<K>, int) -> Outcome<K, V>

  /** `PagingSource(initialKey, loader)`: a missing key is replaced by `initialKey`. */
  function PagingSourceOf<K(!new), V>(initialKey: Option<K>, loader: PagingSource<K, V>): (source: PagingSource<K, V>)
    ensures forall pageSize: int :: source(None, pageSize) == loader(initialKey, pageSize)
    ensures forall k: K, pageSize: int :: source(Some(k), pageSize) == loader(Some(k), pageSize)
  {
    (key: Option<K>, pageSize: int) => loader(if key.Some? then key else initialKey, pageSize)
  }

  /** Kotlin's `List.map`. */
  function MapSeq<I, O>(s: seq<I>, f: I -> O): (r: seq<O>)
    ensures |r| == |s|
    ensures forall i :: 0 <= i < |s| ==> r[i] == f(s[i])
  {
    if s == [] then [] else [f(s[0])] + MapSeq(s[1..], f)
  }

  /** The page `map` passes on for one outcome of the underlying source. */
  function MapOutcome<K, I, O>(o: Outcome<K, I>, transform: I -> O): Outcome<K, O> {
    match o
    case Success(page) => Success(PagingResult(MapSeq(page.data, transform), page.nextKey))
    case Failure(e) => Failure(e)
  }

  /**
   * `source.map(transform)`: loads through `source` with the same key and page
   * size, keeps the next key and a thrown exception, and transforms each item
   * in place and in order.
   */
  function Map<K(!new), I, O>(source: PagingSource<K, I>, transform: I -> O): (mapped: PagingSource<K, O>)
    ensures forall key: Option<K>, pageSize: int ::
      source(key, pageSize).Failure? ==> mapped(key, pageSize) == Failure(source(key, pageSize).error)
    ensures forall key: Option<K>, pageSize: int ::
      source(key, pageSize).Success? ==>
        && mapped(key, pageSize).Success?
        && mapped(key, pageSize).result.nextKey == source(key, pageSize).result.nextKey
        && |mapped(key, pageSize).result.data| == |source(key, pageSize).result.data|
        && forall i :: 0 <= i < |source(key, pageSize).result.data| ==>
             mapped(key, pageSize).result.data[i] == transform(source(key, pageSize).result.data[i])
  {
    (key: Option<K>, pageSize: int) => MapOutcome(source(key, pageSize), transform)
  }

  /** Mapping with the identity function leaves a list unchanged. */
  lemma {:induction false} MapSeqIdentity<T>(s: seq<T>)
    ensures MapSeq(s, (x: T) => x) == s
  {
    if s != [] {
      MapSeqIdentity(s[1..]);
    }
  }

  /** `map` with the identity transform behaves exactly like the source it decorates. */
  lemma MapIdentity<K(!new), V>(source: PagingSource<K, V>)
    ensures forall key: Option<K>, pageSize: int :: Map(source, (x: V) => x)(key, pageSize) == source(key, pageSize)
  {
    forall key: Option<K>, pageSize: int
      ensures Map(source, (x: V) => x)(key, pageSize) == source(key, pageSize)
    {
      match source(key, pageSize)
      case Success(page) => MapSeqIdentity(page.data);
      case Failure(_) =>
    }
  }
}
