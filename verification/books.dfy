/**
 Book candidates from the volumes search: the HTTP status check, and the
 extraction of at most three entries from the decoded response, with a
 default title and author list where the response has none.
 */
module Books {
  import opened Wrappers

  /** The `volumeInfo` object of one search item; either key may be absent. */
  datatype VolumeInfo = VolumeInfo(title: Option<string>, authors: Option<seq<string>>)

  /** One element of the response's `items` list. `analyze_text`
      indexes `volumeInfo` without a default, so its absence is kept representable. */
  datatype Item = Item(volumeInfo: Option<VolumeInfo>)

  /** The decoded response body: the `items` key may be absent. */
  datatype Volumes = Volumes(items: Option<seq<Item>>)

  /** What the HTTP request returns: a status code and the decoded body. */
  datatype Response = Response(status: int, body: Volumes)

  /** A candidate book after defaults are applied. */
  datatype Book = Book(title: string, authors: seq<string>)

  /** At most this many items are read from a response. */
  const MaxBooks: nat := 3
  const NoTitle: string := "No title found"
  const NoAuthors: string := "No authors found"
  /** The only status treated as a result. */
  const StatusOk: int := 200

  /** `search_books` after the request: the body on status 200, nothing
      otherwise. */
  function SearchBooks(r: Response): (v: Option<Volumes>)
    ensures v.Some? <==> r.status == StatusOk
    ensures v.Some? ==> v.value == r.body
  {
    if r.status == StatusOk then Some(r.body) else None
  }

  /** The defaults applied to one volume: a missing title becomes the
      placeholder title, missing authors a one-name placeholder list; a
      present value is kept as it is. */
  function BookOf(v: VolumeInfo): (b: Book)
    ensures b.title == NoTitle ==> v.title.None? || v.title == Some(NoTitle)
    ensures |b.authors| == 0 ==> v.authors == Some([])
    ensures v.authors.None? ==> |b.authors| == 1
  {
    Book(v.title.GetOr(NoTitle), v.authors.GetOr([NoAuthors]))
  }

  /** Defaults replace exactly the missing keys. */
  lemma BookOfDefaults(v: VolumeInfo)
    ensures v.title.None? ==> BookOf(v).title == NoTitle
    ensures v.title.Some? ==> BookOf(v).title == v.title.value
    ensures v.authors.None? ==> BookOf(v).authors == [NoAuthors]
    ensures v.authors.Some? ==> BookOf(v).authors == v.authors.value
    ensures |BookOf(v).authors| == 0 ==> v.authors == Some([])
  {
  }

  /** The loop over the taken items: one book per item, in order, until an
      item without `volumeInfo` raises; the failure carries that item's
      index. */
  function ExtractAll(items: seq<Item>): (r: Result<seq<Book>, nat>)
    ensures r.Success? <==> forall i :: 0 <= i < |items| ==> items[i].volumeInfo.Some?
    ensures r.Success? ==> |r.value| == |items|
    ensures r.Success? ==> forall i :: 0 <= i < |items| ==> r.value[i] == BookOf(items[i].volumeInfo.value)
    ensures r.Failure? ==> r.error < |items| && items[r.error].volumeInfo.None?
    ensures r.Failure? ==> forall i :: 0 <= i < r.error ==> items[i].volumeInfo.Some?
  {
    if |items| == 0 then Success([])
    else match items[0].volumeInfo
      case None => Failure(0)
      case Some(v) =>
        match ExtractAll(items[1..])
        case Failure(i) => Failure(i + 1)
        case Success(rest) => Success([BookOf(v)] + rest)
  }

  /** Python's `items[:3]`: the first three items, or all of fewer. */
  function TakeFirst(items: seq<Item>): (taken: seq<Item>)
    ensures |taken| == if |items| < MaxBooks then |items| else MaxBooks
    ensures taken <= items
  {
    if |items| <= MaxBooks then items else items[..MaxBooks]
  }

  /** The book entries of a search outcome: none for a failed search or a
      body without `items`, otherwise the first three items with defaults.
      The error is the index of the first taken item without `volumeInfo`. */
  function BookEntries(found: Option<Volumes>): (r: Result<seq<Book>, nat>)
    ensures found.None? ==> r == Success([])
    ensures r.Success? ==> |r.value| <= MaxBooks
    ensures r.Failure? ==> found.Some? && r.error < MaxBooks
  {
    match found
    case None => Success([])
    case Some(volumes) => ExtractAll(TakeFirst(volumes.items.GetOr([])))
  }

  /** For a successful search, the entries are the first three items in
      their original order, with defaults; the extraction fails exactly when
      one of those items lacks `volumeInfo`. */
  lemma BookEntriesInOrder(volumes: Volumes)
    ensures var items := volumes.items.GetOr([]);
            var r := BookEntries(Some(volumes));
            && (r.Success? <==> forall i :: 0 <= i < |items| && i < MaxBooks ==> items[i].volumeInfo.Some?)
            && (r.Success? ==> |r.value| == if |items| < MaxBooks then |items| else MaxBooks)
            && (r.Success? ==> forall i :: 0 <= i < |r.value| ==> r.value[i] == BookOf(items[i].volumeInfo.value))
            && (r.Failure? ==> items[r.error].volumeInfo.None?)
  {
    var items := volumes.items.GetOr([]);
    var taken := TakeFirst(items);
    assert forall i :: 0 <= i < |taken| ==> taken[i] == items[i];
  }
}
