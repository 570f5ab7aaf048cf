/**
 * store/newsSlice.ts, the reducers: two independent feeds (`homeNews` and
 * `searchResults`), each a `NewsSectionState`, and how the pending, fulfilled
 * and rejected actions of the four thunks change them.
 *
 * The pure reducers (`Reduce...`) and the complete dispatches (`...Fetched`:
 * condition, pending, thunk body, then fulfilled or rejected) specify the
 * classes at the end: `Feed` holds one section's fields and `NewsStore`
 * holds both feeds and runs a dispatch from start to finish.
 */
module NewsSlice {
  import opened Wrappers
  import opened Articles
  import opened NewsThunks
  import NewsCache
  import Categories

  /** `NewsSectionState`: one feed's articles, its three loading flags, the pagination flag and the two error texts. */
  datatype FeedState = FeedState(
    articles: seq<FeedArticle>,
    loading: bool,
    isRefreshing: bool,
    loadingMore: bool,
    hasMore: bool,
    error: Option<string>,
    errorMessage: Option<string>)

  /** Both feeds start loading, with no articles, more to load and no error. */
  const INITIAL_FEED: FeedState := FeedState([], true, false, false, true, None, None)

  /** `text || null`: an empty string counts as no error. */
  function OrNull(text: Option<string>): (r: Option<string>)
    ensures r.Some? <==> text.Some? && text.value != ""
    ensures r.Some? ==> r == text
  {
    if text.Some? && text.value != "" then text else None
  }

  // ----- the reducers -----

  /** `fetchHomeNewsAsync.pending`: refreshing when there are articles already, loading otherwise; errors cleared. */
  function ReduceHomePending(s: FeedState): FeedState {
    s.(isRefreshing := |s.articles| > 0, loading := |s.articles| == 0, error := None, errorMessage := None)
  }

  /** `fetchHomeNewsAsync.fulfilled`: the payload's articles replace the feed. */
  function ReduceHomeFulfilled(s: FeedState, payload: HomePayload): FeedState {
    s.(articles := payload.articles, loading := false, isRefreshing := false,
       hasMore := |payload.articles| > 0, error := OrNull(payload.error), errorMessage := OrNull(payload.error))
  }

  /** `fetchHomeNewsAsync.rejected`: the articles stay, pagination stops. */
  function ReduceHomeRejected(s: FeedState, reason: string): FeedState {
    s.(loading := false, isRefreshing := false, error := Some(reason), errorMessage := Some(reason), hasMore := false)
  }

  /** The pending action of either "load more" thunk. */
  function ReduceMorePending(s: FeedState): FeedState {
    s.(loadingMore := true)
  }

  /** The fulfilled action of either "load more" thunk: the page is appended; an empty page ends pagination. */
  function ReduceMoreFulfilled(s: FeedState, page: seq<FeedArticle>): FeedState {
    s.(articles := s.articles + page, loadingMore := false, hasMore := |page| > 0)
  }

  /** `fetchMoreHomeNewsAsync.rejected`: the error is shown and pagination stops. */
  function ReduceHomeMoreRejected(s: FeedState, reason: string): FeedState {
    s.(loadingMore := false, error := Some(reason), errorMessage := Some(reason), hasMore := false)
  }

  /** `fetchSearchNewsAsync.pending`: the old results are cleared. */
  function ReduceSearchPending(s: FeedState): FeedState {
    s.(loading := true, error := None, errorMessage := None, articles := [], hasMore := true)
  }

  /** `fetchSearchNewsAsync.fulfilled`. */
  function ReduceSearchFulfilled(s: FeedState, results: seq<FeedArticle>): FeedState {
    s.(articles := results, loading := false, hasMore := |results| > 0)
  }

  /** `fetchSearchNewsAsync.rejected`: no results and nothing more to load. */
  function ReduceSearchRejected(s: FeedState, reason: string): FeedState {
    s.(loading := false, error := Some(reason), errorMessage := Some(reason), articles := [], hasMore := false)
  }

  /** `fetchMoreSearchNewsAsync.rejected`: the error is shown; `hasMore` is left as it was. */
  function ReduceSearchMoreRejected(s: FeedState, reason: string): FeedState {
    s.(loadingMore := false, error := Some(reason), errorMessage := Some(reason))
  }

  /** `resetErrorMessage`, on one feed: the transient message goes, the persistent `error` stays. */
  function ReduceResetErrorMessage(s: FeedState): FeedState {
    s.(errorMessage := None)
  }

  // ----- complete dispatches -----

  /** The `condition` of both "load more" thunks: no page in flight and more to load. */
  predicate CanLoadMore(s: FeedState) {
    !s.loadingMore && s.hasMore
  }

  /** `dispatch(fetchHomeNewsAsync(isRefresh))` on the home feed, given what the cache would return. */
  function HomeFetched(s: FeedState, isRefresh: bool, api: Request -> FetchOutcome,
                       cached: Option<NewsCache.Payload<FeedArticle>>, distance: string -> string): FeedState {
    var pending := ReduceHomePending(s);
    match FetchHomeNews(isRefresh, pending.articles, api, cached, distance)
    case Fulfilled(payload) => ReduceHomeFulfilled(pending, payload)
    case Rejected(reason) => ReduceHomeRejected(pending, reason)
  }

  /** `dispatch(fetchMoreHomeNewsAsync())` on the home feed; a failed condition dispatches nothing. */
  function MoreHomeFetched(s: FeedState, api: Request -> FetchOutcome, distance: string -> string): FeedState {
    if !CanLoadMore(s) then s
    else
      var pending := ReduceMorePending(s);
      match FetchMoreHomeNews(pending.articles, api, distance)
      case Fulfilled(page) => ReduceMoreFulfilled(pending, page)
      case Rejected(reason) => ReduceHomeMoreRejected(pending, reason)
  }

  /** `dispatch(fetchSearchNewsAsync(term))` on the search feed. */
  function SearchFetched(s: FeedState, term: string, api: Request -> FetchOutcome, distance: string -> string)
    : FeedState
  {
    var pending := ReduceSearchPending(s);
    match FetchSearchNews(term, api, distance)
    case Fulfilled(results) => ReduceSearchFulfilled(pending, results)
    case Rejected(reason) => ReduceSearchRejected(pending, reason)
  }

  /** `dispatch(fetchMoreSearchNewsAsync())` on the search feed, for the current search query. */
  function MoreSearchFetched(s: FeedState, query: string, api: Request -> FetchOutcome, distance: string -> string)
    : FeedState
  {
    if !CanLoadMore(s) then s
    else
      var pending := ReduceMorePending(s);
      match FetchMoreSearchNews(pending.articles, query, api, distance)
      case Fulfilled(page) => ReduceMoreFulfilled(pending, page)
      case Rejected(reason) => ReduceSearchMoreRejected(pending, reason)
  }

  /** What `getCache(HOME_NEWS_CACHE_KEY)` returns at `now`. */
  function CachedHome(store: map<string, NewsCache.Slot<FeedArticle>>, now: int, io: NewsCache.StorageIO)
    : Option<NewsCache.Payload<FeedArticle>>
  {
    if io.readOk then NewsCache.Lookup(store, NewsCache.HOME_NEWS_CACHE_KEY, now) else None
  }

  /** The storage after a home fetch: the final list is written on success, an expired entry dropped on failure. */
  function CacheAfterHomeFetch(store: map<string, NewsCache.Slot<FeedArticle>>, isRefresh: bool,
                               current: seq<FeedArticle>, api: Request -> FetchOutcome, now: int,
                               io: NewsCache.StorageIO, distance: string -> string)
    : map<string, NewsCache.Slot<FeedArticle>>
  {
    match api(HOME_REQUEST)
    case Fetched(raw) =>
      if io.writeOk then
        NewsCache.Stored(store, NewsCache.HOME_NEWS_CACHE_KEY,
                         NewsCache.Items(HomeList(isRefresh, current, FormatArticles(raw, distance))), now)
      else store
    case Thrown(_) =>
      if io.readOk && io.removeOk then NewsCache.AfterLookup(store, NewsCache.HOME_NEWS_CACHE_KEY, now) else store
  }

  /** The storage after a home "load more": a successful page writes the whole extended list. */
  function CacheAfterMoreHome(store: map<string, NewsCache.Slot<FeedArticle>>, s: FeedState,
                              api: Request -> FetchOutcome, now: int, writeOk: bool, distance: string -> string)
    : map<string, NewsCache.Slot<FeedArticle>>
  {
    if !CanLoadMore(s) then store
    else match MoreHomeRequest(s.articles)
      case None => store
      case Some(req) =>
        match api(req)
        case Fetched(raw) =>
          if writeOk then
            NewsCache.Stored(store, NewsCache.HOME_NEWS_CACHE_KEY,
                             NewsCache.Items(s.articles + NextPage(raw, distance)), now)
          else store
        case Thrown(_) => store
  }

  /** The request `fetchMoreHomeNewsAsync()` sends, if any: none when the condition fails or the feed is empty. */
  function MoreHomeSent(s: FeedState): (r: Option<Request>)
    ensures r.Some? <==> CanLoadMore(s) && s.articles != []
    ensures r.Some? ==> r.value == Request("", None, Some(s.articles[|s.articles| - 1].originalPublishedAt))
  {
    if CanLoadMore(s) then MoreHomeRequest(s.articles) else None
  }

  /** The request `fetchMoreSearchNewsAsync()` sends for `query`, if any. */
  function MoreSearchSent(s: FeedState, query: string): (r: Option<Request>)
    ensures r.Some? <==> CanLoadMore(s) && s.articles != []
    ensures r.Some? ==>
      r.value == Request(query, Categories.GetCategoryFromLabel(query), Some(s.articles[|s.articles| - 1].originalPublishedAt))
  {
    if CanLoadMore(s) then MoreSearchRequest(s.articles, query) else None
  }

  // ----- properties -----

  /** No page in flight and no refresh under way: the state of a feed between dispatches. */
  predicate AtRest(s: FeedState) {
    !s.loadingMore && !s.isRefreshing
  }

  /**
   * The home pending action raises exactly one of `loading` (empty feed) and
   * `isRefreshing` (feed with articles), clears both errors and leaves the
   * articles and pagination alone.
   */
  lemma HomePendingSpec(s: FeedState)
    ensures var p := ReduceHomePending(s);
      && (p.loading <==> s.articles == [])
      && (p.isRefreshing <==> s.articles != [])
      && p.loading != p.isRefreshing
      && p.error == None && p.errorMessage == None
      && p.articles == s.articles && p.hasMore == s.hasMore && p.loadingMore == s.loadingMore
  {
  }

  /**
   * A whole home fetch. On success the feed holds the new list (the batch
   * merged in front of the old articles on refresh), pagination resumes iff
   * that list is non-empty and no error is shown. On failure with a fresh
   * non-empty cache the feed shows the cached list with the error; otherwise
   * it keeps its articles, shows the error and stops pagination.
   */
  lemma HomeFetchedSpec(s: FeedState, isRefresh: bool, api: Request -> FetchOutcome,
                        cached: Option<NewsCache.Payload<FeedArticle>>, distance: string -> string)
    ensures var r := HomeFetched(s, isRefresh, api, cached, distance);
      && !r.loading && !r.isRefreshing && r.loadingMore == s.loadingMore
      && (api(HOME_REQUEST).Fetched? ==>
            var batch := FormatArticles(api(HOME_REQUEST).articles, distance);
            && r.articles == (if isRefresh then RefreshMerge(batch, s.articles) else batch)
            && (r.hasMore <==> r.articles != [])
            && r.error == None && r.errorMessage == None)
      && (api(HOME_REQUEST).Thrown? ==>
            var text := ErrorText(api(HOME_REQUEST).message, HOME_FETCH_FAILED);
            if cached.Some? && cached.value.Items? && cached.value.items != [] then
              && r.articles == cached.value.items && r.hasMore
              && r.error == OrNull(Some(text)) && r.errorMessage == r.error
            else
              && r.articles == s.articles && !r.hasMore
              && r.error == Some(text) && r.errorMessage == Some(text))
  {
    FetchHomeNewsSpec(isRefresh, s.articles, api, cached, distance);
  }

  /**
   * A refresh whose fetched batch and old feed each have distinct URLs leaves
   * a feed with distinct URLs that starts with the batch and contains every
   * old article the batch does not replace.
   */
  lemma RefreshKeepsUrlsDistinct(s: FeedState, api: Request -> FetchOutcome,
                                 cached: Option<NewsCache.Payload<FeedArticle>>, distance: string -> string)
    requires api(HOME_REQUEST).Fetched?
    requires DistinctUrls(s.articles) && DistinctUrls(FormatArticles(api(HOME_REQUEST).articles, distance))
    ensures var batch := FormatArticles(api(HOME_REQUEST).articles, distance);
      var r := HomeFetched(s, true, api, cached, distance);
      && DistinctUrls(r.articles)
      && r.articles[..|batch|] == batch
      && (forall a :: a in s.articles && a.url !in Urls(batch) ==> a in r.articles)
      && Urls(r.articles) == Urls(batch) + Urls(s.articles)
  {
    var batch := FormatArticles(api(HOME_REQUEST).articles, distance);
    RefreshMergeSpec(batch, s.articles);
  }

  /**
   * A whole home "load more". When the condition fails nothing happens at all.
   * Otherwise an empty feed is rejected with its message without a request;
   * a page that arrives is appended after the existing articles, which are
   * kept as they were, and pagination goes on iff the page is non-empty; a
   * failure shows the error and stops pagination. The articles never change
   * on a rejection.
   */
  lemma MoreHomeFetchedSpec(s: FeedState, api: Request -> FetchOutcome, api': Request -> FetchOutcome,
                            distance: string -> string)
    ensures !CanLoadMore(s) ==> MoreHomeFetched(s, api, distance) == s
    ensures s.articles == [] ==> MoreHomeFetched(s, api, distance) == MoreHomeFetched(s, api', distance)
    ensures CanLoadMore(s) && s.articles == [] ==>
      MoreHomeFetched(s, api, distance) == s.(error := Some(NO_PRIOR_HOME), errorMessage := Some(NO_PRIOR_HOME), hasMore := false)
    ensures CanLoadMore(s) && s.articles != [] ==>
      var req := MoreHomeRequest(s.articles).value;
      var r := MoreHomeFetched(s, api, distance);
      && req == Request("", None, Some(s.articles[|s.articles| - 1].originalPublishedAt))
      && !r.loadingMore
      && (api(req).Fetched? ==>
            var page := NextPage(api(req).articles, distance);
            && r.articles == s.articles + page
            && r.articles[..|s.articles|] == s.articles
            && (r.hasMore <==> |api(req).articles| > 1)
            && r.error == s.error && r.errorMessage == s.errorMessage)
      && (api(req).Thrown? ==>
            var text := ErrorText(api(req).message, MORE_HOME_FAILED);
            r == s.(error := Some(text), errorMessage := Some(text), hasMore := false))
  {
    FetchMoreHomeNewsSpec(s.articles, api, api', distance);
    if CanLoadMore(s) && s.articles != [] {
      var req := MoreHomeRequest(s.articles).value;
      if api(req).Fetched? {
        NextPageSpec(api(req).articles, distance);
      }
    }
  }

  /**
   * A whole search: the results replace the old ones, pagination goes on iff
   * there are any, and no error is left; a failure empties the feed and stops
   * pagination. The outcome does not depend on the feed before the search.
   */
  lemma SearchFetchedSpec(s: FeedState, s': FeedState, term: string, api: Request -> FetchOutcome,
                          distance: string -> string)
    ensures var r := SearchFetched(s, term, api, distance);
      && !r.loading && r.isRefreshing == s.isRefreshing && r.loadingMore == s.loadingMore
      && (api(SearchRequest(term)).Fetched? ==>
            && r.articles == FormatArticles(api(SearchRequest(term)).articles, distance)
            && (r.hasMore <==> r.articles != [])
            && r.error == None && r.errorMessage == None)
      && (api(SearchRequest(term)).Thrown? ==>
            var text := ErrorText(api(SearchRequest(term)).message, SEARCH_FAILED);
            && r.articles == [] && !r.hasMore
            && r.error == Some(text) && r.errorMessage == Some(text))
    ensures s'.loadingMore == s.loadingMore && s'.isRefreshing == s.isRefreshing ==>
      SearchFetched(s, term, api, distance) == SearchFetched(s', term, api, distance)
  {
  }

  /**
   * A whole search "load more": like the home one, except that a rejection
   * leaves `hasMore` set, so pagination may be asked for again.
   */
  lemma MoreSearchFetchedSpec(s: FeedState, query: string, api: Request -> FetchOutcome,
                              api': Request -> FetchOutcome, distance: string -> string)
    ensures !CanLoadMore(s) ==> MoreSearchFetched(s, query, api, distance) == s
    ensures s.articles == [] ==>
      MoreSearchFetched(s, query, api, distance) == MoreSearchFetched(s, query, api', distance)
    ensures CanLoadMore(s) && s.articles == [] ==>
      MoreSearchFetched(s, query, api, distance) == s.(error := Some(NO_PRIOR_SEARCH), errorMessage := Some(NO_PRIOR_SEARCH))
    ensures CanLoadMore(s) && s.articles != [] ==>
      var req := MoreSearchRequest(s.articles, query).value;
      var r := MoreSearchFetched(s, query, api, distance);
      && req == Request(query, Categories.GetCategoryFromLabel(query), Some(s.articles[|s.articles| - 1].originalPublishedAt))
      && !r.loadingMore
      && (api(req).Fetched? ==>
            var page := NextPage(api(req).articles, distance);
            && r.articles == s.articles + page
            && r.articles[..|s.articles|] == s.articles
            && (r.hasMore <==> |api(req).articles| > 1))
      && (api(req).Thrown? ==>
            var text := ErrorText(api(req).message, MORE_SEARCH_FAILED);
            r == s.(error := Some(text), errorMessage := Some(text)) && r.hasMore)
  {
    FetchMoreSearchNewsSpec(s.articles, query, api, api', distance);
    if CanLoadMore(s) && s.articles != [] {
      var req := MoreSearchRequest(s.articles, query).value;
      if api(req).Fetched? {
        NextPageSpec(api(req).articles, distance);
      }
    }
  }

  /**
   * Once a home page comes back with at most one article, pagination is over:
   * every later "load more" is a no-op whatever the API would answer.
   */
  lemma ShortPageEndsHomePagination(s: FeedState, api: Request -> FetchOutcome, api': Request -> FetchOutcome,
                                    distance: string -> string)
    requires CanLoadMore(s) && s.articles != []
    requires var req := MoreHomeRequest(s.articles).value; api(req).Fetched? && |api(req).articles| <= 1
    ensures var r := MoreHomeFetched(s, api, distance);
      && r.articles == s.articles
      && MoreHomeFetched(r, api', distance) == r
  {
    MoreHomeFetchedSpec(s, api, api', distance);
    var req := MoreHomeRequest(s.articles).value;
    NextPageSpec(api(req).articles, distance);
  }

  /** `resetErrorMessage` clears only the transient message: the articles, flags and `error` stay. */
  lemma ResetErrorMessageSpec(s: FeedState)
    ensures var r := ReduceResetErrorMessage(s);
      && r.errorMessage == None && r.error == s.error && r.articles == s.articles
      && r.loading == s.loading && r.isRefreshing == s.isRefreshing
      && r.loadingMore == s.loadingMore && r.hasMore == s.hasMore
    ensures ReduceResetErrorMessage(ReduceResetErrorMessage(s)) == ReduceResetErrorMessage(s)
  {
  }

  /**
   * Between dispatches no feed is refreshing or has a page in flight: the
   * initial state is at rest and every complete dispatch and
   * `resetErrorMessage` keep it so.
   */
  lemma DispatchesKeepAtRest(s: FeedState, isRefresh: bool, term: string, api: Request -> FetchOutcome,
                             cached: Option<NewsCache.Payload<FeedArticle>>, distance: string -> string)
    ensures AtRest(INITIAL_FEED)
    ensures AtRest(s) ==>
      && AtRest(HomeFetched(s, isRefresh, api, cached, distance))
      && AtRest(MoreHomeFetched(s, api, distance))
      && AtRest(SearchFetched(s, term, api, distance))
      && AtRest(MoreSearchFetched(s, term, api, distance))
      && AtRest(ReduceResetErrorMessage(s))
  {
    HomeFetchedSpec(s, isRefresh, api, cached, distance);
  }

  /**
   * While one action is pending on a feed at rest, exactly one activity flag
   * is up: the home fetch raises `loading` or `isRefreshing`, the search
   * raises `loading`, and a "load more" on a feed that is not loading raises
   * `loadingMore`. A "load more" dispatched before the first home fetch
   * settles, however, leaves `loading` and `loadingMore` up together.
   */
  lemma PendingFlags(s: FeedState)
    requires AtRest(s)
    ensures var p := ReduceHomePending(s); p.loading != p.isRefreshing && !p.loadingMore
    ensures var p := ReduceSearchPending(s); p.loading && !p.isRefreshing && !p.loadingMore
    ensures !s.loading ==>
      var p := ReduceMorePending(s); p.loadingMore && !p.loading && !p.isRefreshing
    ensures var p := ReduceMorePending(INITIAL_FEED); p.loading && p.loadingMore
  {
  }

  /**
   * The cache round trip of the home feed: after a successful home fetch
   * whose list is non-empty, a failing home fetch within six hours shows (at
   * most the first 25 of) that list with the error text, even on a feed that
   * has been emptied in between.
   */
  lemma FallbackServesLastWrite(store: map<string, NewsCache.Slot<FeedArticle>>, s: FeedState, t: FeedState,
                                isRefresh: bool, api: Request -> FetchOutcome, failing: Request -> FetchOutcome,
                                now: int, later: int, distance: string -> string)
    requires api(HOME_REQUEST).Fetched? && failing(HOME_REQUEST).Thrown?
    requires now <= later <= now + NewsCache.EXPIRATION_MS
    requires HomeFetched(s, isRefresh, api, None, distance).articles != []
    ensures var written := CacheAfterHomeFetch(store, isRefresh, s.articles, api, now, NewsCache.StorageIO(true, true, true), distance);
      var list := HomeFetched(s, isRefresh, api, None, distance).articles;
      var r := HomeFetched(t, false, failing, CachedHome(written, later, NewsCache.StorageIO(true, true, true)), distance);
      && r.articles == list[..|r.articles|]
      && |r.articles| == (if |list| < NewsCache.MAX_CACHE_ITEMS then |list| else NewsCache.MAX_CACHE_ITEMS)
      && r.hasMore
      && r.error == OrNull(Some(ErrorText(failing(HOME_REQUEST).message, HOME_FETCH_FAILED)))
  {
    var io := NewsCache.StorageIO(true, true, true);
    var list := HomeFetched(s, isRefresh, api, None, distance).articles;
    HomeFetchedSpec(s, isRefresh, api, None, distance);
    var written := CacheAfterHomeFetch(store, isRefresh, s.articles, api, now, io, distance);
    assert written == NewsCache.Stored(store, NewsCache.HOME_NEWS_CACHE_KEY, NewsCache.Items(list), now);
    NewsCache.SetThenGet(store, NewsCache.HOME_NEWS_CACHE_KEY, NewsCache.Items(list), now, later);
    var cached := CachedHome(written, later, io);
    assert cached == Some(NewsCache.Limit(NewsCache.Items(list)));
    HomeFetchedSpec(t, false, failing, cached, distance);
  }

  // ----- the store -----

  /** One `NewsSectionState` in the Redux store, updated in place by its reducers. */
  class Feed {
    var articles: seq<FeedArticle>
    var loading: bool
    var isRefreshing: bool
    var loadingMore: bool
    var hasMore: bool
    var error: Option<string>
    var errorMessage: Option<string>

    /** The feed's fields as a value. */
    function Snapshot(): FeedState
      reads this
    {
      FeedState(articles, loading, isRefreshing, loadingMore, hasMore, error, errorMessage)
    }

    constructor ()
      ensures Snapshot() == INITIAL_FEED
    {
      articles, loading, isRefreshing, loadingMore := [], true, false, false;
      hasMore, error, errorMessage := true, None, None;
    }

    method HomePending()
      modifies this
      ensures Snapshot() == ReduceHomePending(old(Snapshot()))
    {
      isRefreshing := |articles| > 0;
      loading := |articles| == 0;
      error := None;
      errorMessage := None;
    }

    method HomeFulfilled(payload: HomePayload)
      modifies this
      ensures Snapshot() == ReduceHomeFulfilled(old(Snapshot()), payload)
    {
      articles := payload.articles;
      loading := false;
      isRefreshing := false;
      hasMore := |payload.articles| > 0;
      error := OrNull(payload.error);
      errorMessage := OrNull(payload.error);
    }

    method HomeRejected(reason: string)
      modifies this
      ensures Snapshot() == ReduceHomeRejected(old(Snapshot()), reason)
    {
      loading := false;
      isRefreshing := false;
      error := Some(reason);
      errorMessage := Some(reason);
      hasMore := false;
    }

    method MorePending()
      modifies this
      ensures Snapshot() == ReduceMorePending(old(Snapshot()))
    {
      loadingMore := true;
    }

    method MoreFulfilled(page: seq<FeedArticle>)
      modifies this
      ensures Snapshot() == ReduceMoreFulfilled(old(Snapshot()), page)
    {
      articles := articles + page;
      loadingMore := false;
      hasMore := |page| > 0;
    }

    method HomeMoreRejected(reason: string)
      modifies this
      ensures Snapshot() == ReduceHomeMoreRejected(old(Snapshot()), reason)
    {
      loadingMore := false;
      error := Some(reason);
      errorMessage := Some(reason);
      hasMore := false;
    }

    method SearchPending()
      modifies this
      ensures Snapshot() == ReduceSearchPending(old(Snapshot()))
    {
      loading := true;
      error := None;
      errorMessage := None;
      articles := [];
      hasMore := true;
    }

    method SearchFulfilled(results: seq<FeedArticle>)
      modifies this
      ensures Snapshot() == ReduceSearchFulfilled(old(Snapshot()), results)
    {
      articles := results;
      loading := false;
      hasMore := |results| > 0;
    }

    method SearchRejected(reason: string)
      modifies this
      ensures Snapshot() == ReduceSearchRejected(old(Snapshot()), reason)
    {
      loading := false;
      error := Some(reason);
      errorMessage := Some(reason);
      articles := [];
      hasMore := false;
    }

    method SearchMoreRejected(reason: string)
      modifies this
      ensures Snapshot() == ReduceSearchMoreRejected(old(Snapshot()), reason)
    {
      loadingMore := false;
      error := Some(reason);
      errorMessage := Some(reason);
    }

    method ResetErrorMessage()
      modifies this
      ensures Snapshot() == ReduceResetErrorMessage(old(Snapshot()))
    {
      errorMessage := INITIAL_FEED.errorMessage;
    }
  }

  /**
   * The `news` slice: the two feeds, and the four thunks dispatched against
   * them. The API, the date formatter and the clock are parameters; the
   * device storage is the `cache` passed in.
   */
  class NewsStore {
    const homeNews: Feed
    const searchResults: Feed

    /** The two feeds are separate objects. */
    ghost predicate Valid()
      reads this
    {
      homeNews != searchResults
    }

    constructor ()
      ensures Valid() && fresh(homeNews) && fresh(searchResults)
      ensures homeNews.Snapshot() == INITIAL_FEED && searchResults.Snapshot() == INITIAL_FEED
    {
      homeNews := new Feed();
      searchResults := new Feed();
    }

    /** `resetErrorMessage()`: both feeds lose their transient message. */
    method ResetErrorMessage()
      requires Valid()
      modifies homeNews, searchResults
      ensures homeNews.Snapshot() == ReduceResetErrorMessage(old(homeNews.Snapshot()))
      ensures searchResults.Snapshot() == ReduceResetErrorMessage(old(searchResults.Snapshot()))
    {
      homeNews.ResetErrorMessage();
      searchResults.ResetErrorMessage();
    }

    /** `dispatch(fetchHomeNewsAsync(isRefresh))` at time `now`. */
    method FetchHomeNews(isRefresh: bool, api: Request -> FetchOutcome, distance: string -> string,
                         cache: NewsCache.Cache<FeedArticle>, now: int, io: NewsCache.StorageIO)
      requires Valid()
      modifies homeNews, cache
      ensures homeNews.Snapshot() ==
        HomeFetched(old(homeNews.Snapshot()), isRefresh, api, CachedHome(old(cache.store), now, io), distance)
      ensures cache.store ==
        CacheAfterHomeFetch(old(cache.store), isRefresh, old(homeNews.articles), api, now, io, distance)
      ensures unchanged(searchResults)
    {
      homeNews.HomePending();
      match api(HOME_REQUEST) {
        case Fetched(raw) =>
          var formattedArticles := FormatArticles(raw, distance);
          var oldArticles := homeNews.articles;
          var finalArticlesList;
          if isRefresh {
            finalArticlesList := RefreshMerge(formattedArticles, oldArticles);
          } else {
            finalArticlesList := formattedArticles;
          }
          cache.SetCache(NewsCache.HOME_NEWS_CACHE_KEY, NewsCache.Items(finalArticlesList), now, io.writeOk);
          homeNews.HomeFulfilled(HomePayload(finalArticlesList, None));
        case Thrown(message) =>
          var cachedArticles := cache.GetCache(NewsCache.HOME_NEWS_CACHE_KEY, now, io.readOk, io.removeOk);
          match HomeFallback(cachedArticles, message) {
            case Fulfilled(payload) => homeNews.HomeFulfilled(payload);
            case Rejected(reason) => homeNews.HomeRejected(reason);
          }
      }
    }

    /**
     * `dispatch(fetchMoreHomeNewsAsync())` at time `now`; `sent` is the
     * request made to the API, none when the condition failed or the feed
     * was empty.
     */
    method FetchMoreHomeNews(api: Request -> FetchOutcome, distance: string -> string,
                             cache: NewsCache.Cache<FeedArticle>, now: int, writeOk: bool)
      returns (sent: Option<Request>)
      requires Valid()
      modifies homeNews, cache
      ensures sent == MoreHomeSent(old(homeNews.Snapshot()))
      ensures homeNews.Snapshot() == MoreHomeFetched(old(homeNews.Snapshot()), api, distance)
      ensures cache.store == CacheAfterMoreHome(old(cache.store), old(homeNews.Snapshot()), api, now, writeOk, distance)
      ensures unchanged(searchResults)
    {
      if !(!homeNews.loadingMore && homeNews.hasMore) {
        return None;
      }
      homeNews.MorePending();
      sent := MoreHomeRequest(homeNews.articles);
      match sent {
        case None =>
          homeNews.HomeMoreRejected(NO_PRIOR_HOME);
        case Some(req) =>
          match api(req) {
            case Fetched(raw) =>
              var page := NextPage(raw, distance);
              cache.SetCache(NewsCache.HOME_NEWS_CACHE_KEY, NewsCache.Items(homeNews.articles + page), now, writeOk);
              homeNews.MoreFulfilled(page);
            case Thrown(message) =>
              homeNews.HomeMoreRejected(ErrorText(message, MORE_HOME_FAILED));
          }
      }
    }

    /** `dispatch(fetchSearchNewsAsync(term))`. */
    method FetchSearchNews(term: string, api: Request -> FetchOutcome, distance: string -> string)
      returns (sent: Request)
      requires Valid()
      modifies searchResults
      ensures sent == SearchRequest(term)
      ensures searchResults.Snapshot() == SearchFetched(old(searchResults.Snapshot()), term, api, distance)
      ensures unchanged(homeNews)
    {
      searchResults.SearchPending();
      sent := SearchRequest(term);
      match api(sent) {
        case Fetched(raw) => searchResults.SearchFulfilled(FormatArticles(raw, distance));
        case Thrown(message) => searchResults.SearchRejected(ErrorText(message, SEARCH_FAILED));
      }
    }

    /** `dispatch(fetchMoreSearchNewsAsync())` with `query` the current search query. */
    method FetchMoreSearchNews(query: string, api: Request -> FetchOutcome, distance: string -> string)
      returns (sent: Option<Request>)
      requires Valid()
      modifies searchResults
      ensures sent == MoreSearchSent(old(searchResults.Snapshot()), query)
      ensures searchResults.Snapshot() == MoreSearchFetched(old(searchResults.Snapshot()), query, api, distance)
      ensures unchanged(homeNews)
    {
      if !(!searchResults.loadingMore && searchResults.hasMore) {
        return None;
      }
      searchResults.MorePending();
      sent := MoreSearchRequest(searchResults.articles, query);
      match sent {
        case None =>
          searchResults.SearchMoreRejected(NO_PRIOR_SEARCH);
        case Some(req) =>
          match api(req) {
            case Fetched(raw) => searchResults.MoreFulfilled(NextPage(raw, distance));
            case Thrown(message) => searchResults.SearchMoreRejected(ErrorText(message, MORE_SEARCH_FAILED));
          }
      }
    }
  }
}
