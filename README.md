# News app core in Dafny

This project models the logic core of a React Native news reader. The core
has six parts:

- the Redux `news` slice (`store/newsSlice.ts`). It holds two feeds, the home
  feed and the search results. Four async thunks fetch a first page, a search
  or the next page, and reducers react to their pending, fulfilled and
  rejected actions.
- the category table with its two lookup maps (`constants/Categories.ts`).
- the home-feed cache over device storage, with a 6-hour expiry and a
  25-item cap (`utils/newsCache.ts`).
- the favorites list in device storage (`utils/favoritesCache.ts`).
- the image proxy URL builder (`utils/imageOptimizer.ts`).
- the relative-date formatter that capitalises "há" (`utils/dateFormat.ts`).

Each source file has its own module:

| module | file | form |
|---|---|---|
| `Wrappers` | `wrappers.dfy` | `Option` |
| `Articles` | `articles.dfy` | the article records (`ArticleParams` and `ArticleWithOriginalDate`); URL sets; subsequences |
| `DateFormat` | `date_format.dfy` | pure functions and lemmas |
| `Categories` | `categories.dfy` | pure: the table, the two `reduce` folds and the lookups |
| `ImageOptimizer` | `image_optimizer.dfy` | pure |
| `NewsCache` | `news_cache.dfy` | class `Cache`, whose `store` field is the device storage |
| `FavoritesCache` | `favorites_cache.dfy` | class `Favorites`, over the same kind of storage |
| `NewsThunks` | `news_thunks.dfy` | the thunk bodies, as pure functions |
| `NewsSlice` | `news_slice.dfy` | pure reducers; class `Feed` for one `NewsSectionState`; class `NewsStore` for both feeds and the four dispatches |

How the outside world enters the model:

- **The news API** is a function parameter, `api: Request -> FetchOutcome`. A
  call either returns articles or throws. A thrown value carries a message
  when it is an `Error`.
- **The date library.** `formatDistanceToNowStrict` is the parameter
  `distance`.
- **URL encoding.** `encodeURIComponent` is the parameter `encode`.
- **The clock.** `Date.now()` is the parameter `now`.
- **Storage failures.** A storage call that throws is a `false` among the
  `readOk`, `writeOk` and `removeOk` parameters.
- **Unparsable storage.** Storage text that does not parse as JSON is a
  `Corrupt` slot.
- **Dispatch order.** A dispatch is modelled from its `condition` to its
  final action, one dispatch at a time.

## Model

| member | source | states |
|---|---|---|
| Articles.Urls | store/newsSlice.ts:82 | the URL set of a list: every article's URL is in it, and every URL in it belongs to some article |
| DateFormat.IndexOf | utils/dateFormat.ts:9 | the search behind `String.replace` with a string pattern: the first occurrence at or after `from`, or none |
| DateFormat.ReplaceFirst | utils/dateFormat.ts:9 | only the first occurrence is replaced: the prefix and suffix are kept and the length changes by the length difference; no occurrence means no change |
| DateFormat.FormatTimeAgo | utils/dateFormat.ts:4-10 | formatting keeps the length of the distance text ("há" and "Há" have the same length) |
| DateFormat.NoLowerUnchanged | utils/dateFormat.ts:9 | text without "há" is returned unchanged |
| DateFormat.OnlyFirstCapitalised | utils/dateFormat.ts:9 | exactly the first "há" becomes "Há": the result's "há" occurrences are the input's minus the first |
| DateFormat.LeadingLowerCapitalised | utils/dateFormat.ts:5-9 | a distance text starting with "há" starts with "Há" afterwards, and the rest is kept |
| Categories.NameInjective | constants/Categories.ts:1-10 | different categories have different names |
| Categories.TableIsInjective | constants/Categories.ts:18-59 | the eight rows have distinct categories and distinct non-empty labels, and "general" has no row |
| Categories.IndexByCategoryMaps | constants/Categories.ts:62-68 | the fold behind `CATEGORY_TO_LABEL` maps each row's category to its label and adds no other key |
| Categories.IndexByCategoryKeeps | constants/Categories.ts:62-68 | the fold keeps a key that no row mentions |
| Categories.IndexByLabelMaps | constants/Categories.ts:70-76 | the fold behind `LABEL_TO_CATEGORY` maps each row's label to its category and adds no other key |
| Categories.IndexByLabelKeeps | constants/Categories.ts:70-76 | the fold keeps a key that no row mentions |
| Categories.CategoryFromLabelSpec | constants/Categories.ts:89-91 | `getCategoryFromLabel` finds a category iff the text is a row's label, and then it is that row's category |
| Categories.CategoryLabelSpec | constants/Categories.ts:84-86 | `getCategoryLabel` gives a row's label for its category and returns any other text unchanged |
| Categories.LookupsRoundTrip | constants/Categories.ts:62-91 | label to category to label, and category to label to category, are round trips |
| Categories.IsNewsCategorySpec | constants/Categories.ts:79-81 | `isNewsCategory` holds exactly for the eight table categories, so not for "general" |
| Categories.NameNonEmpty | constants/Categories.ts:1-10 | no category name is the empty (falsy) string |
| ImageOptimizer.DecimalRoundTrip | utils/imageOptimizer.ts:20 | the width's decimal text is digits without a leading zero and reads back as the width |
| ImageOptimizer.WidthTextHasNoAmpersand | utils/imageOptimizer.ts:20 | the width text cannot break the query string |
| ImageOptimizer.NonHttpUnchanged | utils/imageOptimizer.ts:15-17 | an empty URL or one not starting with "http" is returned as it is |
| ImageOptimizer.HttpRewritten | utils/imageOptimizer.ts:18-22 | an http(s) URL becomes the proxy prefix, then the encoded URL, then `&w=` and the width, then the fixed `&output=webp&q=100&default=1` |
| ImageOptimizer.ProxiedIffHttp | utils/imageOptimizer.ts:15-22 | the result goes through the proxy iff the input starts with "http" |
| NewsCache.Limit | utils/newsCache.ts:14 | an array keeps its first min(n, 25) elements; any other value is kept whole |
| NewsCache.Cache.constructor | utils/newsCache.ts:1 | a fresh install's storage is empty; every other member takes any storage |
| NewsCache.Cache.SetCache | utils/newsCache.ts:11-24 | a write stores the limited data with the current time stamp; a failed write changes nothing |
| NewsCache.Cache.GetCache | utils/newsCache.ts:29-51 | a fresh entry's data is returned; a failed read, an absent key, a corrupt item or an expired item gives null; an expired item is also deleted unless the removal fails |
| NewsCache.ExpiryIsStrict | utils/newsCache.ts:38-39 | the threshold is 21,600,000 ms, and an item exactly 6 hours old is still served |
| NewsCache.LimitKeepsShortArrays | utils/newsCache.ts:14 | arrays of at most 25 are stored whole; longer ones are cut to their first 25 |
| NewsCache.SetThenGet | utils/newsCache.ts:11-51 | what is set is got back, limited, for 6 hours and no longer; a later read removes it and only it |
| NewsCache.MissLeavesStore | utils/newsCache.ts:31-36 | an absent or corrupt item gives null and leaves the storage alone |
| NewsCache.LookupOfEntry | utils/newsCache.ts:36-46 | a stored item is returned while fresh and removed once expired |
| NewsCache.OtherKeysUntouched | utils/newsCache.ts:11-51 | setting or reading one key leaves every other key as it was |
| FavoritesCache.Favorites.constructor | utils/favoritesCache.ts:2 | a fresh install's storage is empty; every other member takes any storage |
| FavoritesCache.Favorites.GetFavorites | utils/favoritesCache.ts:7-15 | the stored list, or [] when it is absent, unparsable or unreadable |
| FavoritesCache.Favorites.AddFavorite | utils/favoritesCache.ts:18-31 | the article is prepended only when its URL is not already a favorite; otherwise there is no write |
| FavoritesCache.Favorites.RemoveFavorite | utils/favoritesCache.ts:34-42 | the filtered list is written back |
| FavoritesCache.Favorites.IsFavorite | utils/favoritesCache.ts:45-53 | true iff the storage can be read and some favorite has the URL |
| FavoritesCache.WithoutUrlShape | utils/favoritesCache.ts:37 | the filter keeps exactly the favorites with another URL, as a subsequence; none with the URL is left; with no match it changes nothing |
| FavoritesCache.WithoutUrlCounts | utils/favoritesCache.ts:37 | each favorite with another URL survives as many times as it occurs; none with the URL survives |
| FavoritesCache.WithoutUrlSpec | utils/favoritesCache.ts:37 | the filter keeps exactly the favorites with another URL, in order and with their repetitions; none with the URL is left; with no match it changes nothing |
| FavoritesCache.WithoutUrlKeepsUnique | utils/favoritesCache.ts:37 | filtering a list with unique URLs leaves unique URLs |
| FavoritesCache.AddPrepends | utils/favoritesCache.ts:23-26 | a new favorite goes in front of the existing list |
| FavoritesCache.AddIdempotent | utils/favoritesCache.ts:22-26 | adding a favorite twice is the same as adding it once, and it is a favorite afterwards |
| FavoritesCache.RemoveSpec | utils/favoritesCache.ts:34-42 | after removal no favorite has the URL, the others stay in order with their repetitions, and removing from missing storage writes [] |
| FavoritesCache.OperationsKeepUrlsUnique | utils/favoritesCache.ts:18-42 | adding and removing keep favorite URLs unique, whatever the storage faults |
| FavoritesCache.StorageFailures | utils/favoritesCache.ts:10-40 | a failed write changes nothing; a failed read followed by a write replaces the list with [news] or [] |
| NewsThunks.FormatArticles | store/newsSlice.ts:51-57 | same articles in the same order; each keeps its URL and its original date in `originalPublishedAt` |
| NewsThunks.UrlsConcat | store/newsSlice.ts:86 | the URLs of a concatenation are the union of the URLs |
| NewsThunks.WithoutUrlsMembers | store/newsSlice.ts:83-85 | the refresh filter keeps exactly the old articles whose URL is not in the new batch |
| NewsThunks.WithoutUrlsOrder | store/newsSlice.ts:83-85 | the filter keeps the old order |
| NewsThunks.WithoutUrlsCounts | store/newsSlice.ts:83-85 | each old article whose URL is not in the batch survives as many times as it occurs; the others do not survive |
| NewsThunks.WithoutUrlsDistinct | store/newsSlice.ts:83-85 | filtering keeps URLs distinct |
| NewsThunks.WithoutUrlsIdentity | store/newsSlice.ts:83-85 | nothing is dropped when no URL matches |
| NewsThunks.WithoutUrlsUrls | store/newsSlice.ts:83-85 | the filtered URLs are the old ones minus the batch's |
| NewsThunks.WithoutUrlsConcat | store/newsSlice.ts:83-85 | filtering distributes over concatenation |
| NewsThunks.WithoutUrlsNone | store/newsSlice.ts:83-85 | a list whose URLs are all in the batch filters to [] |
| NewsThunks.RefreshMergeSpec | store/newsSlice.ts:81-86 | a refresh puts the new batch first and then the old articles not replaced, in order and each as many times as before; its URLs are the union; distinct URLs stay distinct |
| NewsThunks.RefreshMergeIdempotent | store/newsSlice.ts:81-86 | refreshing twice with the same batch changes nothing more |
| NewsThunks.FetchHomeNewsSpec | store/newsSlice.ts:61-115 | success gives the merged or plain list without error; failure gives a non-empty cached list with the error text, and a rejection otherwise |
| NewsThunks.DropFirst | store/newsSlice.ts:132 | `splice(0, 1)` drops exactly the first element, and an empty batch stays empty |
| NewsThunks.Cursor | store/newsSlice.ts:121-128 | the cursor is the last article's original date, and there is none for an empty feed |
| NewsThunks.FetchMoreHomeNewsSpec | store/newsSlice.ts:117-150 | an empty feed is rejected without any request; otherwise it fetches up to the cursor and yields the batch minus its first element, or the error text |
| NewsThunks.FetchMoreSearchNewsSpec | store/newsSlice.ts:195-228 | as for home, with the search query sent as a category when it is a label |
| NewsThunks.NextPageSpec | store/newsSlice.ts:129-141 | a page of n fetched articles appends n - 1 of them (5 give 4), from the second on |
| NewsThunks.SearchRouting | store/newsSlice.ts:171-179 | a category label is searched as that category; any other term as free text alone |
| NewsSlice.OrNull | store/newsSlice.ts:262-263 | `error \|\| null`: an empty message counts as no error |
| NewsSlice.MoreHomeSent | store/newsSlice.ts:117-157 | a home "load more" sends a request iff the condition holds and the feed is non-empty, bounded by the last article's date |
| NewsSlice.MoreSearchSent | store/newsSlice.ts:195-235 | the same for search, with the query and its category |
| NewsSlice.HomePendingSpec | store/newsSlice.ts:251-256 | the home pending action raises `loading` on an empty feed and `isRefreshing` otherwise, never both, and clears the errors |
| NewsSlice.HomeFetchedSpec | store/newsSlice.ts:61-115 | a whole home fetch: the new list with `hasMore` iff non-empty and no error; or the cached list with the error; or the old articles with the error and `hasMore` false |
| NewsSlice.RefreshKeepsUrlsDistinct | store/newsSlice.ts:81-89 | after a refresh the feed starts with the batch, keeps every old article the batch does not replace, and has distinct URLs |
| NewsSlice.MoreHomeFetchedSpec | store/newsSlice.ts:117-158 | a failed condition does nothing; the existing articles are a prefix of the new ones; `hasMore` iff the page is non-empty; a failure stops pagination |
| NewsSlice.SearchFetchedSpec | store/newsSlice.ts:162-193 | a search replaces the results whatever was shown before; a failure empties the feed and stops pagination |
| NewsSlice.MoreSearchFetchedSpec | store/newsSlice.ts:195-236 | as for home, except that a rejection leaves `hasMore` set |
| NewsSlice.ShortPageEndsHomePagination | store/newsSlice.ts:276-282 | after a page with at most one fetched article, every later home "load more" is a no-op |
| NewsSlice.ResetErrorMessageSpec | store/newsSlice.ts:242-246 | only `errorMessage` is cleared, and clearing twice is the same as clearing once |
| NewsSlice.DispatchesKeepAtRest | store/newsSlice.ts:250-323 | between dispatches no feed is refreshing or has a page in flight |
| NewsSlice.PendingFlags | store/newsSlice.ts:251-297 | on a feed at rest each pending action raises exactly one activity flag (home: `loading` or `isRefreshing`; search: `loading`; load more on a loaded feed: `loadingMore`); a "load more" dispatched before the first fetch settles raises `loading` and `loadingMore` together |
| NewsSlice.FallbackServesLastWrite | store/newsSlice.ts:91-106 | after a successful home fetch, a failing one within 6 hours shows the first 25 articles of that list with the error |
| NewsSlice.Feed.constructor | store/newsSlice.ts:29-48 | a feed starts as the initial section state |
| NewsSlice.Feed.HomePending | store/newsSlice.ts:251-256 | the fields become `ReduceHomePending` of the old ones |
| NewsSlice.Feed.HomeFulfilled | store/newsSlice.ts:257-264 | the payload replaces the articles; the flags are cleared; `hasMore` iff non-empty |
| NewsSlice.Feed.HomeRejected | store/newsSlice.ts:265-271 | the error is set and `hasMore` cleared; the articles stay |
| NewsSlice.Feed.MorePending | store/newsSlice.ts:273-275 | `loadingMore` is raised |
| NewsSlice.Feed.MoreFulfilled | store/newsSlice.ts:276-282 | the page is appended; `hasMore` iff the page is non-empty |
| NewsSlice.Feed.HomeMoreRejected | store/newsSlice.ts:283-288 | the error is set and pagination stops |
| NewsSlice.Feed.SearchPending | store/newsSlice.ts:291-297 | the results are cleared and loading starts |
| NewsSlice.Feed.SearchFulfilled | store/newsSlice.ts:298-302 | the results replace the feed |
| NewsSlice.Feed.SearchRejected | store/newsSlice.ts:303-309 | the results are cleared and the error is set |
| NewsSlice.Feed.SearchMoreRejected | store/newsSlice.ts:319-323 | the error is set; `hasMore` is kept |
| NewsSlice.Feed.ResetErrorMessage | store/newsSlice.ts:242-246 | `errorMessage` goes back to null |
| NewsSlice.NewsStore.constructor | store/newsSlice.ts:29-48 | two distinct feeds, both in the initial state |
| NewsSlice.NewsStore.ResetErrorMessage | store/newsSlice.ts:242-246 | both feeds lose their transient message |
| NewsSlice.NewsStore.FetchHomeNews | store/newsSlice.ts:61-115 | the home feed becomes `HomeFetched`; the storage gets the final list on success; the search feed is untouched |
| NewsSlice.NewsStore.FetchMoreHomeNews | store/newsSlice.ts:117-158 | the request sent is `MoreHomeSent`; the home feed becomes `MoreHomeFetched`; the storage gets the extended list; the search feed is untouched |
| NewsSlice.NewsStore.FetchSearchNews | store/newsSlice.ts:162-193 | sends `SearchRequest(term)`; the search feed becomes `SearchFetched`; the home feed is untouched |
| NewsSlice.NewsStore.FetchMoreSearchNews | store/newsSlice.ts:195-236 | the request sent is `MoreSearchSent`; the search feed becomes `MoreSearchFetched`; the home feed is untouched |

## Behaviour worth noting

- **Home fetch rejected.** A rejected home fetch keeps the feed's articles
  (`store/newsSlice.ts:265-271`).
- **Home "load more" rejected.** A rejected home "load more" sets `hasMore`
  to false (`store/newsSlice.ts:283-288`). A rejected search "load more"
  keeps it (`store/newsSlice.ts:319-323`).
- **`hasMore` after a refresh.** A fulfilled home fetch sets `hasMore` from
  the final list, not from the fetched batch (`store/newsSlice.ts:261`). A
  refresh that returns nothing therefore keeps `hasMore` true when older
  articles remain.
- **Pagination.** Appended pages are not de-duplicated against the feed
  (`store/newsSlice.ts:278`, `store/newsSlice.ts:315`). A feed can
  therefore hold the same article twice, and the refresh merge keeps every
  copy of an old article it does not replace (`RefreshMergeSpec`).
- **Favorites after a failed read.** `getFavorites` turns a failed read into
  an empty list (`utils/favoritesCache.ts:10-13`). The write that follows in
  `addFavorite` or `removeFavorite` then replaces the stored favorites with
  `[news]` or `[]` (`StorageFailures`).
- **Activity flags.** Between dispatches no feed is refreshing or has a page
  in flight (`DispatchesKeepAtRest`). A pending action then raises exactly
  one activity flag, with one exception: a "load more" dispatched before the
  first home fetch has settled leaves `loading` and `loadingMore` up
  together (`PendingFlags`).

## Left out

- **HTTP client and API key.** `services/newsAPI.ts` and the key are not
  part of this model. The API is the `api` parameter, and its response is
  reduced to its article list or a thrown error.
- **Simulated delays.** The random `setTimeout` delays only affect timing.
- **Concurrency.** The Redux runtime and interleaved dispatches are not
  modelled. Each dispatch runs to completion before the next, so the home
  thunk's second `getState()` sees the articles as of its pending action.
- **Storage encoding.** JSON serialisation and AsyncStorage's text encoding
  are modelled as parsed slots.
- **Relative-date formatting.** `formatDistanceToNowStrict` with the pt-BR
  locale is the opaque parameter `distance`, so invalid dates that make it
  throw are not modelled.
- **URL encoding.** `encodeURIComponent` is the opaque parameter `encode`.
- ImageOptimizer.GetOptimizedImageUrl: the URL is a string. A null or
  undefined URL, which the source's `!originalUrl` guard returns unchanged,
  is not modelled.
- ImageOptimizer.GetOptimizedImageUrl: the width is an integer, written in
  plain decimal. Non-integer and non-finite JavaScript numbers are not
  modelled, and neither are integers of magnitude 10^21 or more, which
  JavaScript writes in exponent form ("1e+21").
- **Logging.** `console.error` is left out.
- **Category images.** The `image` asset of a category row is left out.
- **JavaScript object keys.** Prototype keys such as "constructor" in
  `CATEGORY_TO_LABEL` and `LABEL_TO_CATEGORY` are not modelled. A lookup of
  a key that no row defines gives nothing.
- **Everything else.** UI components, screens, the sample data in
  `constants/NewsData.ts` and the search slice are left out. The current
  search query is the `query` parameter.
