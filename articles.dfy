/**
 * The article records the news feeds, the cache and the favorites list hold
 * (`ArticleParams` in constants/NewsData.ts and `ArticleWithOriginalDate` in
 * store/newsSlice.ts), and the URL-keyed views of a list of them.
 */
module Articles {

  datatype Source = Source(name: string, url: string)

  /** One article as the news API returns it. `url` identifies the article. */
  datatype Article = Article(
    title: string,
    description: string,
    content: string,
    url: string,
    image: string,
    publishedAt: string,
    source: Source)

  /**
   * An article as it sits in a feed: `publishedAt` holds the display text
   * ("Há 2 horas") and `originalPublishedAt` the untouched ISO timestamp,
   * which pagination uses as its cursor.
   */
  datatype FeedArticle = FeedArticle(
    title: string,
    description: string,
    content: string,
    url: string,
    image: string,
    publishedAt: string,
    source: Source,
    originalPublishedAt: string)

  /** The URLs occurring in a feed list. */
  function Urls(xs: seq<FeedArticle>): (u: set<string>)
    ensures forall i :: 0 <= i < |xs| ==> xs[i].url in u
    ensures forall url :: url in u ==> exists i :: 0 <= i < |xs| && xs[i].url == url
  {
    set i | 0 <= i < |xs| :: xs[i].url
  }

  /** No two entries of the list share a URL. */
  predicate DistinctUrls(xs: seq<FeedArticle>) {
    forall i, j :: 0 <= i < j < |xs| ==> xs[i].url != xs[j].url
  }

  /** `a` occurs in `b` as a (not necessarily contiguous) subsequence, in order. */
  predicate IsSubsequence<T(==)>(a: seq<T>, b: seq<T>)
    decreases |b|
  {
    if a == [] then true
    else if b == [] then false
    else if a[0] == b[0] then IsSubsequence(a[1..], b[1..])
    else IsSubsequence(a, b[1..])
  }
}
