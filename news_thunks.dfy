/**
 * The payload logic of the four async thunks of store/newsSlice.ts, as pure
 * functions of the feed's articles, the news API and the cache contents:
 * `formatArticles`, the refresh merge of `fetchHomeNewsAsync`, its fallback
 * to the cache on failure, and the cursor pagination of the two
 * "load more" thunks.
 *
 * The news API (services/newsAPI.ts) is the parameter `api`: what one call
 * with the given request parameters ends with. The date library call inside
 * `formatTimeAgo` is the parameter `distance`.
 */
module NewsThunks {
  import opened Wrappers
  import opened Articles
  import Categories
  import DateFormat
  import NewsCache

  // ----- the news API, abstracted -----

  /** The arguments of one `fetchNewsAPI(searchTerm, key, category?, toDate?)` call (the key is left out). */
  datatype Request = Request(searchTerm: string, category: Option<Categories.NewsCategory>, toDate: Option<string>)

  /** How one call ends: the response's articles, or a thrown value with its message when it is an `Error`. */
  datatype FetchOutcome = Fetched(articles: seq<Article>) | Thrown(message: Option<string>)

  /** How a thunk settles: `fulfilled` with a payload, or `rejected` through `rejectWithValue`. */
  datatype Settled<P> = Fulfilled(payload: P) | Rejected(reason: string)

  /** The payload of `fetchHomeNewsAsync.fulfilled`: `{ articles, error? }`. */
  datatype HomePayload = HomePayload(articles: seq<FeedArticle>, error: Option<string>)

  const HOME_FETCH_FAILED: string := "Ocorreu um erro desconhecido ao buscar as notícias."
  const NO_PRIOR_HOME: string := "Não há artigos anteriores para carregar mais."
  const MORE_HOME_FAILED: string := "Não foi possível carregar mais notícias."
  const SEARCH_FAILED: string := "Sua busca não pôde ser completada. Tente novamente."
  const NO_PRIOR_SEARCH: string := "Não há resultados de busca para carregar mais."
  const MORE_SEARCH_FAILED: string := "Não foi possível carregar mais resultados."

  /** `error instanceof Error ? error.message : fallback`. */
  function ErrorText(message: Option<string>, fallback: string): string {
    message.GetOr(fallback)
  }

  // ----- formatArticles -----

  /** One element of `formatArticles`: the display date replaces `publishedAt`, which is kept as `originalPublishedAt`. */
  function FormatArticle(a: Article, distance: string -> string): FeedArticle {
    FeedArticle(a.title, a.description, a.content, a.url, a.image,
                DateFormat.FormatTimeAgo(distance(a.publishedAt)), a.source, a.publishedAt)
  }

  /** `formatArticles(articles)`: the same articles, in order, each with its URL and original date kept. */
  function FormatArticles(raw: seq<Article>, distance: string -> string): (r: seq<FeedArticle>)
    ensures |r| == |raw|
    ensures forall i :: 0 <= i < |raw| ==> r[i] == FormatArticle(raw[i], distance)
    ensures forall i :: 0 <= i < |raw| ==> r[i].url == raw[i].url && r[i].originalPublishedAt == raw[i].publishedAt
  {
    if raw == [] then [] else [FormatArticle(raw[0], distance)] + FormatArticles(raw[1..], distance)
  }

  // ----- the refresh merge -----

  /** `oldArticles.filter((a) => !newUrls.has(a.url))`. */
  function WithoutUrls(xs: seq<FeedArticle>, urls: set<string>): seq<FeedArticle> {
    if xs == [] then []
    else if xs[0].url in urls then WithoutUrls(xs[1..], urls)
    else [xs[0]] + WithoutUrls(xs[1..], urls)
  }

  /** The refresh merge: the new batch first, then the old articles whose URL is not in it. */
  function RefreshMerge(batch: seq<FeedArticle>, current: seq<FeedArticle>): seq<FeedArticle> {
    batch + WithoutUrls(current, Urls(batch))
  }

  lemma UrlsConcat(a: seq<FeedArticle>, b: seq<FeedArticle>)
    ensures Urls(a + b) == Urls(a) + Urls(b)
  {
    forall u | u in Urls(a + b) ensures u in Urls(a) + Urls(b) {
      var i :| 0 <= i < |a + b| && (a + b)[i].url == u;
      if i >= |a| { assert b[i - |a|].url == u; }
    }
    forall u | u in Urls(a) + Urls(b) ensures u in Urls(a + b) {
      if u in Urls(b) {
        var i :| 0 <= i < |b| && b[i].url == u;
        assert (a + b)[|a| + i].url == u;
      } else {
        var i :| 0 <= i < |a| && a[i].url == u;
        assert (a + b)[i].url == u;
      }
    }
  }

  /** The filter keeps exactly the articles whose URL is not excluded. */
  lemma {:induction false} WithoutUrlsMembers(xs: seq<FeedArticle>, urls: set<string>)
    ensures forall a :: a in WithoutUrls(xs, urls) <==> a in xs && a.url !in urls
  {
    if xs != [] {
      WithoutUrlsMembers(xs[1..], urls);
      assert xs == [xs[0]] + xs[1..];
    }
  }

  /** The filter keeps every surviving article as many times as it occurs, and no excluded one. */
  lemma {:induction false} WithoutUrlsCounts(xs: seq<FeedArticle>, urls: set<string>)
    ensures forall a :: multiset(WithoutUrls(xs, urls))[a] == (if a.url in urls then 0 else multiset(xs)[a])
  {
    if xs != [] {
      WithoutUrlsCounts(xs[1..], urls);
      assert xs == [xs[0]] + xs[1..];
      assert multiset(xs) == multiset{xs[0]} + multiset(xs[1..]);
      if xs[0].url !in urls {
        assert multiset([xs[0]] + WithoutUrls(xs[1..], urls)) == multiset{xs[0]} + multiset(WithoutUrls(xs[1..], urls));
      }
    }
  }

  /** The filter keeps the surviving articles in their original order. */
  lemma {:induction false} WithoutUrlsOrder(xs: seq<FeedArticle>, urls: set<string>)
    ensures IsSubsequence(WithoutUrls(xs, urls), xs)
  {
    if xs != [] {
      var rest := WithoutUrls(xs[1..], urls);
      WithoutUrlsOrder(xs[1..], urls);
      if xs[0].url in urls {
        WithoutUrlsMembers(xs[1..], urls);
        if rest != [] {
          assert rest[0] in rest;
        }
      } else {
        assert ([xs[0]] + rest)[1..] == rest;
      }
    }
  }

  /** The filter keeps distinct URLs distinct. */
  lemma {:induction false} WithoutUrlsDistinct(xs: seq<FeedArticle>, urls: set<string>)
    requires DistinctUrls(xs)
    ensures DistinctUrls(WithoutUrls(xs, urls))
  {
    if xs != [] {
      var tail := xs[1..];
      var rest := WithoutUrls(tail, urls);
      WithoutUrlsDistinct(tail, urls);
      if xs[0].url !in urls {
        WithoutUrlsMembers(tail, urls);
        var r := [xs[0]] + rest;
        forall j | 0 <= j < |rest| ensures rest[j].url != xs[0].url {
          assert rest[j] in tail;
          var k :| 0 <= k < |tail| && tail[k] == rest[j];
          assert xs[k + 1] == rest[j];
        }
        forall i, j | 0 <= i < j < |r| ensures r[i].url != r[j].url {
          assert r[j] == rest[j - 1];
          if i > 0 { assert r[i] == rest[i - 1]; }
        }
      }
    }
  }

  /** With no URL of the list excluded, the filter changes nothing. */
  lemma {:induction false} WithoutUrlsIdentity(xs: seq<FeedArticle>, urls: set<string>)
    requires Urls(xs) !! urls
    ensures WithoutUrls(xs, urls) == xs
  {
    if xs != [] {
      assert xs[0].url in Urls(xs);
      UrlsConcat([xs[0]], xs[1..]);
      assert xs == [xs[0]] + xs[1..];
      WithoutUrlsIdentity(xs[1..], urls);
    }
  }

  /** The URLs surviving the filter are the list's URLs minus the excluded ones. */
  lemma WithoutUrlsUrls(xs: seq<FeedArticle>, urls: set<string>)
    ensures Urls(WithoutUrls(xs, urls)) == Urls(xs) - urls
  {
    var w := WithoutUrls(xs, urls);
    WithoutUrlsMembers(xs, urls);
    forall u | u in Urls(xs) - urls ensures u in Urls(w) {
      var i :| 0 <= i < |xs| && xs[i].url == u;
      assert xs[i] in w;
      var k :| 0 <= k < |w| && w[k] == xs[i];
    }
    forall u | u in Urls(w) ensures u in Urls(xs) - urls {
      var k :| 0 <= k < |w| && w[k].url == u;
      assert w[k] in w;
      var i :| 0 <= i < |xs| && xs[i] == w[k];
    }
  }

  /** Filtering a concatenation filters each part. */
  lemma {:induction false} WithoutUrlsConcat(a: seq<FeedArticle>, b: seq<FeedArticle>, urls: set<string>)
    ensures WithoutUrls(a + b, urls) == WithoutUrls(a, urls) + WithoutUrls(b, urls)
  {
    if a != [] {
      WithoutUrlsConcat(a[1..], b, urls);
      assert (a + b)[1..] == a[1..] + b;
    } else {
      assert a + b == b;
    }
  }

  /**
   * A home refresh yields the new batch in its order, followed by the old
   * articles whose URL is not in the batch, in their original order and each
   * as many times as it occurred; its URLs are those of both lists, and if
   * each list has distinct URLs, so does the result.
   */
  lemma RefreshMergeSpec(batch: seq<FeedArticle>, current: seq<FeedArticle>)
    ensures |RefreshMerge(batch, current)| >= |batch|
    ensures RefreshMerge(batch, current)[..|batch|] == batch
    ensures forall a :: a in RefreshMerge(batch, current)[|batch|..] <==> a in current && a.url !in Urls(batch)
    ensures IsSubsequence(RefreshMerge(batch, current)[|batch|..], current)
    ensures forall a ::
      multiset(RefreshMerge(batch, current)[|batch|..])[a] == (if a.url in Urls(batch) then 0 else multiset(current)[a])
    ensures Urls(RefreshMerge(batch, current)) == Urls(batch) + Urls(current)
    ensures DistinctUrls(batch) && DistinctUrls(current) ==> DistinctUrls(RefreshMerge(batch, current))
  {
    var kept := WithoutUrls(current, Urls(batch));
    var r := RefreshMerge(batch, current);
    WithoutUrlsMembers(current, Urls(batch));
    WithoutUrlsOrder(current, Urls(batch));
    WithoutUrlsUrls(current, Urls(batch));
    if DistinctUrls(current) {
      WithoutUrlsDistinct(current, Urls(batch));
    }
    assert r[..|batch|] == batch;
    assert r[|batch|..] == kept;
    UrlsConcat(batch, kept);
    if DistinctUrls(batch) && DistinctUrls(current) {
      forall i, j | 0 <= i < j < |r| ensures r[i].url != r[j].url {
        if j >= |batch| {
          assert r[j] == kept[j - |batch|];
          assert r[j] in kept;
          if i >= |batch| {
            assert r[i] == kept[i - |batch|];
          } else {
            assert r[i].url in Urls(batch);
          }
        }
      }
    }
    WithoutUrlsCounts(current, Urls(batch));
  }

  /** Refreshing again with the same batch changes nothing. */
  lemma {:induction false} RefreshMergeIdempotent(batch: seq<FeedArticle>, current: seq<FeedArticle>)
    ensures RefreshMerge(batch, RefreshMerge(batch, current)) == RefreshMerge(batch, current)
  {
    var u := Urls(batch);
    var kept := WithoutUrls(current, u);
    var gone := WithoutUrls(batch, u);
    WithoutUrlsNone(batch, u);
    WithoutUrlsUrls(current, u);
    WithoutUrlsIdentity(kept, u);
    WithoutUrlsConcat(batch, kept, u);
    assert WithoutUrls(batch + kept, u) == kept;
  }

  /** Excluding every URL of a list leaves nothing of it. */
  lemma {:induction false} WithoutUrlsNone(xs: seq<FeedArticle>, urls: set<string>)
    requires Urls(xs) <= urls
    ensures WithoutUrls(xs, urls) == []
  {
    if xs != [] {
      assert xs[0].url in Urls(xs);
      UrlsConcat([xs[0]], xs[1..]);
      assert xs == [xs[0]] + xs[1..];
      WithoutUrlsNone(xs[1..], urls);
    }
  }

  // ----- fetchHomeNewsAsync -----

  /** The request of `fetchHomeNewsAsync`: no search term, no category, no date bound. */
  const HOME_REQUEST: Request := Request("", None, None)

  /** The list a successful home fetch stores and returns: merged on refresh, the new batch otherwise. */
  function HomeList(isRefresh: bool, current: seq<FeedArticle>, batch: seq<FeedArticle>): seq<FeedArticle> {
    if isRefresh then RefreshMerge(batch, current) else batch
  }

  /** The catch branch: a non-empty cached list is served with the error text; otherwise the thunk is rejected. */
  function HomeFallback(cached: Option<NewsCache.Payload<FeedArticle>>, message: Option<string>): Settled<HomePayload> {
    var text := ErrorText(message, HOME_FETCH_FAILED);
    if cached.Some? && cached.value.Items? && |cached.value.items| > 0 then
      Fulfilled(HomePayload(cached.value.items, Some(text)))
    else Rejected(text)
  }

  /**
   * `fetchHomeNewsAsync(isRefresh)` given the articles in the feed, the API
   * and what `getCache` returns (consulted on failure only).
   */
  function FetchHomeNews(isRefresh: bool, current: seq<FeedArticle>, api: Request -> FetchOutcome,
                         cached: Option<NewsCache.Payload<FeedArticle>>, distance: string -> string)
    : Settled<HomePayload>
  {
    match api(HOME_REQUEST)
    case Fetched(raw) => Fulfilled(HomePayload(HomeList(isRefresh, current, FormatArticles(raw, distance)), None))
    case Thrown(message) => HomeFallback(cached, message)
  }

  /**
   * A home fetch that succeeds is fulfilled without error: a refresh with the
   * merge, any other fetch with the new batch alone. One that fails is
   * fulfilled with a non-empty cached list plus the error text, and rejected
   * with that text otherwise.
   */
  lemma FetchHomeNewsSpec(isRefresh: bool, current: seq<FeedArticle>, api: Request -> FetchOutcome,
                          cached: Option<NewsCache.Payload<FeedArticle>>, distance: string -> string)
    ensures api(HOME_REQUEST).Fetched? ==>
      var batch := FormatArticles(api(HOME_REQUEST).articles, distance);
      FetchHomeNews(isRefresh, current, api, cached, distance) ==
        Fulfilled(HomePayload(if isRefresh then RefreshMerge(batch, current) else batch, None))
    ensures api(HOME_REQUEST).Thrown? && cached.Some? && cached.value.Items? && |cached.value.items| > 0 ==>
      FetchHomeNews(isRefresh, current, api, cached, distance) ==
        Fulfilled(HomePayload(cached.value.items, Some(ErrorText(api(HOME_REQUEST).message, HOME_FETCH_FAILED))))
    ensures api(HOME_REQUEST).Thrown? && !(cached.Some? && cached.value.Items? && |cached.value.items| > 0) ==>
      FetchHomeNews(isRefresh, current, api, cached, distance) ==
        Rejected(ErrorText(api(HOME_REQUEST).message, HOME_FETCH_FAILED))
  {
  }

  // ----- the two "load more" thunks -----

  /** `data.articles.splice(0, 1)`: the first element goes, an empty batch stays empty. */
  function DropFirst<T>(xs: seq<T>): (r: seq<T>)
    ensures |r| == if xs == [] then 0 else |xs| - 1
    ensures forall i :: 0 <= i < |r| ==> r[i] == xs[i + 1]
  {
    if xs == [] then [] else xs[1..]
  }

  /** The articles a "load more" appends: the fetched batch without its first element, formatted. */
  function NextPage(raw: seq<Article>, distance: string -> string): seq<FeedArticle> {
    FormatArticles(DropFirst(raw), distance)
  }

  /** The pagination cursor: the `originalPublishedAt` of the last (oldest) article; none for an empty feed. */
  function Cursor(articles: seq<FeedArticle>): (r: Option<string>)
    ensures r.Some? <==> articles != []
    ensures articles != [] ==> r.value == articles[|articles| - 1].originalPublishedAt
  {
    if articles == [] then None else Some(articles[|articles| - 1].originalPublishedAt)
  }

  /** The request of `fetchMoreHomeNewsAsync`, or none when the feed is empty. */
  function MoreHomeRequest(articles: seq<FeedArticle>): Option<Request> {
    match Cursor(articles)
    case None => None
    case Some(toDate) => Some(Request("", None, Some(toDate)))
  }

  /** The request of `fetchMoreSearchNewsAsync` for the current search query, or none when the feed is empty. */
  function MoreSearchRequest(articles: seq<FeedArticle>, query: string): Option<Request> {
    match Cursor(articles)
    case None => None
    case Some(toDate) => Some(Request(query, Categories.GetCategoryFromLabel(query), Some(toDate)))
  }

  /** How a "load more" settles once its request is known. */
  function SettleMore(request: Option<Request>, api: Request -> FetchOutcome, distance: string -> string,
                      noPrior: string, failed: string): Settled<seq<FeedArticle>> {
    match request
    case None => Rejected(noPrior)
    case Some(req) =>
      match api(req)
      case Fetched(raw) => Fulfilled(NextPage(raw, distance))
      case Thrown(message) => Rejected(ErrorText(message, failed))
  }

  /** `fetchMoreHomeNewsAsync()` given the feed's articles. */
  function FetchMoreHomeNews(articles: seq<FeedArticle>, api: Request -> FetchOutcome, distance: string -> string)
    : Settled<seq<FeedArticle>>
  {
    SettleMore(MoreHomeRequest(articles), api, distance, NO_PRIOR_HOME, MORE_HOME_FAILED)
  }

  /** `fetchMoreSearchNewsAsync()` given the feed's articles and the current search query. */
  function FetchMoreSearchNews(articles: seq<FeedArticle>, query: string, api: Request -> FetchOutcome,
                               distance: string -> string): Settled<seq<FeedArticle>>
  {
    SettleMore(MoreSearchRequest(articles, query), api, distance, NO_PRIOR_SEARCH, MORE_SEARCH_FAILED)
  }

  /**
   * Pagination on a non-empty feed asks the API for articles up to the last
   * article's `originalPublishedAt` and, on success, yields the batch minus
   * its first element, each article formatted; on an empty feed it is
   * rejected without consulting the API at all.
   */
  lemma FetchMoreHomeNewsSpec(articles: seq<FeedArticle>, api: Request -> FetchOutcome, api': Request -> FetchOutcome,
                              distance: string -> string)
    ensures articles == [] ==> FetchMoreHomeNews(articles, api, distance) == Rejected(NO_PRIOR_HOME)
    ensures articles == [] ==> FetchMoreHomeNews(articles, api, distance) == FetchMoreHomeNews(articles, api', distance)
    ensures articles != [] ==>
      var req := Request("", None, Some(articles[|articles| - 1].originalPublishedAt));
      && MoreHomeRequest(articles) == Some(req)
      && (api(req).Fetched? ==>
            FetchMoreHomeNews(articles, api, distance) == Fulfilled(NextPage(api(req).articles, distance)))
      && (api(req).Thrown? ==>
            FetchMoreHomeNews(articles, api, distance) == Rejected(ErrorText(api(req).message, MORE_HOME_FAILED)))
  {
  }

  /**
   * Search pagination asks for the current query, routed as a category when
   * it is one of the category labels, bounded by the last article's date; on
   * an empty feed it is rejected without consulting the API.
   */
  lemma FetchMoreSearchNewsSpec(articles: seq<FeedArticle>, query: string, api: Request -> FetchOutcome,
                                api': Request -> FetchOutcome, distance: string -> string)
    ensures articles == [] ==> FetchMoreSearchNews(articles, query, api, distance) == Rejected(NO_PRIOR_SEARCH)
    ensures articles == [] ==>
      FetchMoreSearchNews(articles, query, api, distance) == FetchMoreSearchNews(articles, query, api', distance)
    ensures articles != [] ==>
      var req := Request(query, Categories.GetCategoryFromLabel(query), Some(articles[|articles| - 1].originalPublishedAt));
      && MoreSearchRequest(articles, query) == Some(req)
      && (api(req).Fetched? ==>
            FetchMoreSearchNews(articles, query, api, distance) == Fulfilled(NextPage(api(req).articles, distance)))
      && (api(req).Thrown? ==>
            FetchMoreSearchNews(articles, query, api, distance) == Rejected(ErrorText(api(req).message, MORE_SEARCH_FAILED)))
  {
  }

  /** A page of `n` fetched articles appends `n - 1` of them: the second to the last, in order. */
  lemma NextPageSpec(raw: seq<Article>, distance: string -> string)
    ensures |NextPage(raw, distance)| == if raw == [] then 0 else |raw| - 1
    ensures forall i :: 0 <= i < |NextPage(raw, distance)| ==>
      NextPage(raw, distance)[i] == FormatArticle(raw[i + 1], distance)
    ensures |raw| == 5 ==> |NextPage(raw, distance)| == 4
  {
  }

  // ----- fetchSearchNewsAsync -----

  /** The request of `fetchSearchNewsAsync(term)`: a term that is a category label is sent as that category too. */
  function SearchRequest(term: string): Request {
    Request(term, Categories.GetCategoryFromLabel(term), None)
  }

  /** `fetchSearchNewsAsync(term)`: the formatted batch, or the error text. */
  function FetchSearchNews(term: string, api: Request -> FetchOutcome, distance: string -> string)
    : Settled<seq<FeedArticle>>
  {
    match api(SearchRequest(term))
    case Fetched(raw) => Fulfilled(FormatArticles(raw, distance))
    case Thrown(message) => Rejected(ErrorText(message, SEARCH_FAILED))
  }

  /** A category label is searched as its category ("Esportes" as sports); any other term as free text alone. */
  lemma SearchRouting(term: string)
    ensures SearchRequest(term).searchTerm == term && SearchRequest(term).toDate == None
    ensures forall i :: 0 <= i < |Categories.CATEGORIES| && Categories.CATEGORIES[i].labelText == term ==>
      SearchRequest(term).category == Some(Categories.CATEGORIES[i].category)
    ensures (forall i :: 0 <= i < |Categories.CATEGORIES| ==> Categories.CATEGORIES[i].labelText != term) ==>
      SearchRequest(term).category == None
  {
    Categories.CategoryFromLabelSpec(term);
  }
}
