# tech-news core, modelled in Dafny

A model of the data layer and client state of the tech-news reader, a React/Redux
client of the Guardian content API, with proofs about it. It covers these parts:

- the response cache: a time-to-live map, and cache keys built from sorted query parameters;
- the typed API errors;
- the news service: error classification, retry on connection failures, and the
  cache-then-fetch gateway for the article list and for a single article;
- the two Redux slices, for the article list and for the article detail;
- the `useArticles` hook's first-load and load-more rules;
- the `ErrorBoundary` component's state machine and its error texts.

Files:

- `wrappers.dfy` holds `Option`/`Result`.
- `text.dfy` renders numbers and joins strings.
- `string_order.dfy` defines the lexicographic order that cache keys sort by.
- `api_cache.dfy` and `cache_key.dfy` model `apiCache.ts`.
- `api_errors.dfy` models `apiErrors.ts`.
- `news_service.dfy` models `newsService.ts` and the constants of `apiConfig.ts`.
- `news_types.dfy` holds the article record and the loading phase.
- `articles_slice.dfy` and `article_detail_slice.dfy` model the two slices.
- `use_articles.dfy` models `useArticles.ts`.
- `error_boundary.dfy` models `ErrorBoundary.tsx`.

Objects whose fields change in place are classes whose methods update those fields:

- the cache (`Cache.ApiCache`);
- the slice states (`ArticlesSlice.ArticlesState`, `ArticleDetailSlice.ArticleDetailState`);
- the boundary (`ErrorBoundaryComponent.ErrorBoundary`).

Each of these methods states the whole new state. Each slice keeps a `Valid()`
invariant: an error is recorded exactly when the phase is failed (in the list slice),
and it is never empty. The retry loop is a `while` loop proved equal to a recursive
function. That function follows the source's own recursion, `RetryOutcome`.

The clock and the network are inputs:

- `Date.now()` is a parameter. The gateway takes one time for the cache read
  (`readAt`) and one for the cache write (`writeAt`).
- The network is a sequence of outcomes, one consumed per attempt. Each outcome is
  a success, or a raw error with an optional response and a `request` flag.
- The API key is an input string.

The service's tests name the retried case "retries on network error"
(`src/api/services/__tests__/newsService.test.ts:59`), and a reader might expect
only failures without a response to be retried. The code
(`src/api/services/newsService.ts:39`) tests only whether the error's `request`
field is truthy, and the model follows the code. An HTTP client error that carries
both a response and a request is therefore retried too.
`NewsService.ResponseWithRequestIsRetried` proves that a 404 with a request uses up
all four attempts before it surfaces as `NotFoundError`.

The list slice's `fetchArticles` thunk calls the HTTP client directly, not through
the news service. The model therefore treats its outcome as an input
(`ArticlesSlice.PageOutcome`). The detail slice's `fetchArticleById` goes through the
gateway, and `ArticleDetailSlice.FetchArticleByIdThunk` composes the two.

## Model

| member | source | states |
|---|---|---|
| Cache.Lookup | src/api/utils/apiCache.ts:18-29 | a read returns data exactly when the key is present and its entry is at most TTL old, and then it returns the stored data |
| Cache.AfterLookup | src/api/utils/apiCache.ts:22-26 | a read removes exactly the read key when its entry is stale and leaves every other entry untouched |
| Cache.ApiCache.constructor | src/api/utils/apiCache.ts:8-9 | a new cache is empty |
| Cache.ApiCache.Set | src/api/utils/apiCache.ts:11-16 | the key now maps to the data stamped with the current time; other keys keep their entries |
| Cache.ApiCache.Get | src/api/utils/apiCache.ts:18-29 | returns the fresh entry's data or nothing, and evicts the entry when it is stale |
| Cache.ApiCache.Clear | src/api/utils/apiCache.ts:31-33 | afterwards the cache is empty |
| Cache.IsExpired | src/api/utils/apiCache.ts:22 | an entry is never expired at or before the time it was stored |
| Cache.ExpiryIsPermanent | src/api/utils/apiCache.ts:22 | once an entry has expired it stays expired at every later time |
| Cache.SetThenLookup | src/api/utils/apiCache.ts:11-29 | data just stored is read back, and the read changes nothing, while within the TTL |
| Cache.ExpiryBoundary | src/api/utils/apiCache.ts:22-26 | an entry is still served exactly TTL (300000 ms) after it was stored, and is gone and evicted one millisecond later |
| Cache.LookupMissing | src/api/utils/apiCache.ts:19-20 | an absent key reads as nothing and changes nothing |
| Cache.LookupExpired | src/api/utils/apiCache.ts:22-26 | a stale entry reads as nothing and is deleted |
| Cache.LookupAfterClear | src/api/utils/apiCache.ts:31-33 | after clearing, every key reads as nothing |
| StringOrder.LessIrreflexive | src/api/utils/apiCache.ts:37 | no parameter name sorts before itself |
| StringOrder.LessTransitive | src/api/utils/apiCache.ts:37 | the name order is transitive |
| StringOrder.LessTrichotomy | src/api/utils/apiCache.ts:37 | two different names are always ordered one way or the other |
| CacheKey.Insert | src/api/utils/apiCache.ts:37 | inserting adds exactly one entry, keeping all the others |
| CacheKey.SortByKey | src/api/utils/apiCache.ts:36-37 | sorting neither loses nor invents parameters |
| CacheKey.InsertSorted | src/api/utils/apiCache.ts:37 | inserting a new name into a sorted list keeps it sorted |
| CacheKey.SortByKeySorted | src/api/utils/apiCache.ts:36-37 | the parameters of a record come out in strictly increasing name order |
| CacheKey.SortedUnique | src/api/utils/apiCache.ts:36-37 | two sorted arrangements of the same parameters are identical |
| Text.NatToString | src/api/utils/apiCache.ts:38 | a whole number renders as at least one decimal digit, without a leading zero, and the digits read back as the number |
| Text.IntToString | src/api/services/newsService.ts:50 | a non-negative number renders as at least one digit, with no leading zero unless it is 0, that reads back as it; a negative one as a minus sign and the digits of its magnitude, again with no leading zero |
| Text.IntToStringInjective | src/api/services/newsService.ts:50 | two different integers, of either sign, never render as the same text |
| Text.Join | src/api/utils/apiCache.ts:39 | joining nothing gives the empty string; otherwise the result starts with the first part, is followed by the separator when there is a second, and has the parts' total length plus one separator between each neighbouring pair |
| Text.JoinSnoc | src/api/utils/apiCache.ts:39 | joining one more part gives the earlier join, the separator, and that part, so every later part appears in order with one separator before it |
| CacheKey.ShowRendersValue | src/api/utils/apiCache.ts:38 | a string value is rendered as is, a boolean as true/false, and a whole number as at least one digit with no leading zero (after a minus sign when negative) that reads back as the number |
| CacheKey.PairTextSplits | src/api/utils/apiCache.ts:38 | a pair is the name, then `=`, then the rendered value, and nothing else |
| CacheKey.Pairs | src/api/utils/apiCache.ts:38 | one pair text per parameter, in the parameters' order |
| CacheKey.GenerateKey | src/api/utils/apiCache.ts:35-41 | a key begins with the path followed by `?` |
| CacheKey.GenerateKeyIsSortedJoin | src/api/utils/apiCache.ts:35-41 | the key is the path, `?`, and the `name=value` pairs in name order joined by `&` |
| CacheKey.GenerateKeyOrderIndependent | src/api/utils/apiCache.ts:35-41 | records with the same entries in any order give the same key |
| CacheKey.GenerateKeyNoParams | src/api/utils/apiCache.ts:39-40 | no parameters give the path followed by a bare `?` |
| CacheKey.GenerateKeyExample | src/api/utils/apiCache.ts:35-41 | `{page: 1, active: true, category: 'tech'}` on `/api/news` gives `/api/news?active=true&category=tech&page=1` |
| ApiErrors.NewNetworkError | src/api/utils/apiErrors.ts:12-17 | a default network error has message "Network error occurred", name NetworkError, and no status or response |
| ApiErrors.NotFoundErrorFields | src/api/utils/apiErrors.ts:19-25 | a not-found error has message "<resource> not found", status 404, no response, and name NotFoundError |
| ApiErrors.ApiErrorFields | src/api/utils/apiErrors.ts:1-10 | a generic error carries exactly the message, status and response it was built with, and name ApiError |
| ApiErrors.NamesDistinguishVariants | src/api/utils/apiErrors.ts:1-25 | two errors have the same name exactly when they are the same variant |
| NewsService.HasRequest | src/api/services/newsService.ts:39 | only an HTTP-client error can carry a request; a NetworkError thrown by the call itself never counts as having one, so it is not retried |
| NewsService.HandleApiError | src/api/services/newsService.ts:15-29 | a response with status 404 gives NotFoundError("Article"); any other response gives ApiError with the custom message, status and body; an existing NetworkError is rethrown unchanged; a truthy request gives a default NetworkError; anything else gives ApiError with the custom message only |
| NewsService.RetryOutcome | src/api/services/newsService.ts:31-45 | at most retries+1 attempts; every attempt before the last failed with a request; the last succeeded, failed without a request, or used up the budget; its outcome is returned |
| NewsService.FetchWithRetry | src/api/services/newsService.ts:31-45 | the loop makes exactly the attempts, and returns exactly the outcome, of the recursive retry with MAX_RETRIES = 3 |
| NewsService.FirstSuccessReturned | src/api/services/newsService.ts:35-36 | a first success is returned after one attempt |
| NewsService.FailureWithoutRequestNotRetried | src/api/services/newsService.ts:37-43 | a failure without a request is rethrown after one attempt |
| NewsService.RetryThenSucceed | src/api/services/newsService.ts:37-41 | one connection failure and then a success takes two attempts and returns the success |
| NewsService.RetriesExhausted | src/api/services/newsService.ts:38-43 | connection failures on every attempt stop after exactly MAX_RETRIES + 1 = 4 attempts, and the result classifies as the default NetworkError |
| NewsService.ResponseWithRequestIsRetried | src/api/services/newsService.ts:39-41 | a failure carrying both a response and a request is retried to the end of the budget, and a 404 then still classifies as NotFoundError |
| NewsService.ListParams | src/api/services/newsService.ts:48-53 | four parameters with distinct names, among them the page as text and the API key |
| NewsService.ArticleParams | src/api/services/newsService.ts:73-76 | two parameters with distinct names, among them the API key |
| NewsService.ListKey | src/api/services/newsService.ts:55 | the list key is `/search?api-key=<key>&page=<page>&section=technology&show-fields=thumbnail,trailText`, the parameters in name order |
| NewsService.ArticleKey | src/api/services/newsService.ts:78 | the article key is `/<id>?api-key=<key>&show-fields=thumbnail,trailText,body` |
| NewsService.ListKeysDistinguishPages | src/api/services/newsService.ts:48-57 | two different pages, of any sign, are cached under different keys, so one page's cached response is never served for another |
| NewsService.ArticleKeysDistinguishIds | src/api/services/newsService.ts:73-80 | two different article ids are cached under different keys |
| NewsService.ListAndArticleKeysDisjoint | src/api/services/newsService.ts:48-80 | no list key equals any article key, whatever the page, id and api key, so the two gateways never read each other's entries in the one shared cache |
| NewsService.CachedFetchSpec | src/api/services/newsService.ts:55-69 | a gateway call makes at most four attempts; it makes none exactly when the cache holds a fresh value, which is then returned unchanged; a failure adds nothing to the cache; a fetched value can be read back at the time it was stored |
| NewsService.CachedFetch | src/api/services/newsService.ts:55-69 | a fresh cached value is returned with no attempt and no change to the cache; on a miss, a fetched value is returned and stored under the key, and a failure is classified and stores nothing |
| NewsService.GetTopTechNews | src/api/services/newsService.ts:47-70 | the cache-then-fetch rule under the key of `/search` with section, page, api-key and list fields, failing with "Failed to fetch tech news" |
| NewsService.GetArticleById | src/api/services/newsService.ts:72-93 | the cache-then-fetch rule under the key of `/<id>` with api-key and detail fields, failing with "Failed to fetch article" |
| ArticlesSlice.RejectionMessage | src/features/articles/articlesSlice.ts:71 | the error text is the rejection's message when there is one, otherwise "Failed to fetch articles"; never empty |
| ArticlesSlice.ArticlesState.constructor | src/features/articles/articlesSlice.ts:15-21 | no items, idle, no error, page 1, more pages assumed |
| ArticlesSlice.ArticlesState.Pending | src/features/articles/articlesSlice.ts:48-51 | the phase becomes loading and the error is cleared; items, page and hasMore are kept |
| ArticlesSlice.ArticlesState.Fulfilled | src/features/articles/articlesSlice.ts:52-68 | the phase becomes succeeded with no error; without results nothing else changes; page 1 replaces the items, any other page appends them; the page is recorded; hasMore holds exactly when the page was non-empty |
| ArticlesSlice.ArticlesState.Rejected | src/features/articles/articlesSlice.ts:69-72 | the phase becomes failed with the rejection text; items, page and hasMore are kept |
| ArticlesSlice.ArticlesState.FetchArticles | src/features/articles/articlesSlice.ts:23-72 | a dispatched fetch ends in the fulfilled or the rejected state described above, keeping the slice invariant |
| ArticleDetailSlice.DefaultErrorMessage | src/features/detail/articleDetailSlice.ts:49-63 | each thunk has a non-empty fallback error text |
| ArticleDetailSlice.RejectionMessage | src/features/detail/articleDetailSlice.ts:49-63 | the rejection's message when there is one, otherwise "Failed to set article" or "Failed to fetch article" by thunk |
| ArticleDetailSlice.ArticleDetailState.constructor | src/features/detail/articleDetailSlice.ts:11-15 | no article, idle, no error |
| ArticleDetailSlice.ArticleDetailState.ClearArticle | src/features/detail/articleDetailSlice.ts:34-38 | from any state, back to no article, idle, no error |
| ArticleDetailSlice.ArticleDetailState.Pending | src/features/detail/articleDetailSlice.ts:42-55 | only the phase changes, to loading |
| ArticleDetailSlice.ArticleDetailState.Fulfilled | src/features/detail/articleDetailSlice.ts:45-59 | the phase becomes succeeded and the payload is the article; the previous error is kept |
| ArticleDetailSlice.ArticleDetailState.Rejected | src/features/detail/articleDetailSlice.ts:49-63 | the phase becomes failed with the thunk's rejection text; the article is kept |
| ArticleDetailSlice.SetCurrentArticleThunk | src/features/detail/articleDetailSlice.ts:25-28 | setting an article always succeeds and displays that article |
| ArticleDetailSlice.FetchArticleByIdThunk | src/features/detail/articleDetailSlice.ts:17-23 | the gateway rule holds for the cache; a fetched article is displayed; a failure records the classified error's message and keeps the article |
| ArticleDetailSlice.NotFoundShownAsArticleNotFound | src/api/services/newsService.ts:16-18 | a by-id fetch that misses the cache and whose last attempt got a 404, whatever its body and whether or not a request was recorded, fails with NotFoundError("Article") and is shown in the detail view as "Article not found" |
| UseArticles.ShouldFetchInitially | src/hooks/useArticles.ts:11 | whenever the first-load guard holds, the page it requests is also the one `loadMore` would compute, page 1 |
| UseArticles.NextPage | src/hooks/useArticles.ts:18 | the requested page is the least page p >= 1 with 10 * (p - 1) >= n, that is ceil(n / 10) + 1; it is at least 2 whenever items exist |
| UseArticles.NextPageUnique | src/hooks/useArticles.ts:18 | only one page number meets those bounds |
| UseArticles.NextPageExamples | src/hooks/useArticles.ts:18 | 0 items give page 1, 10 give page 2, 11 give page 3 |
| UseArticles.LoadMoreRequest | src/hooks/useArticles.ts:16-21 | a page is requested exactly when not loading and more pages exist, and it is the next page |
| UseArticles.InitialLoad | src/hooks/useArticles.ts:10-14 | page 1 is requested exactly when there are no items and the phase is idle, which only the initial state satisfies; the whole settled state is given: results become the list with `hasMore` telling whether any came, a missing result keeps the initial list, and a rejection records its message; afterwards the guard is false, so the first page is requested at most once |
| UseArticles.LoadMore | src/hooks/useArticles.ts:16-21 | nothing changes while loading or without more pages; otherwise the whole settled state is given: a fulfilled page is appended after the old items, never replacing them, a page without results keeps list, page and `hasMore`, and a rejection records its message and keeps them too; the list only ever grows |
| ErrorBoundaryComponent.GetErrorConfig | src/components/common/ErrorBoundary/ErrorBoundary.tsx:35-46 | the title is "Connection Error" exactly for the boundary's own NetworkError, with the fixed connection text; any other error gets "Oops!" with its message, or the fallback text when the message is empty; the text is never empty |
| ErrorBoundaryComponent.RetryLimit | src/components/common/ErrorBoundary/ErrorBoundary.tsx:88 | the limit is the prop when given, otherwise 3 |
| ErrorBoundaryComponent.CanRetry | src/components/common/ErrorBoundary/ErrorBoundary.tsx:122-123 | without the prop, "Try Again" is offered exactly while the retry count is below 3; a given limit of 0 or less never offers it |
| ErrorBoundaryComponent.FromApiError | src/components/common/ErrorBoundary/ErrorBoundary.tsx:35-46 | were an API-layer error thrown during rendering, whichever variant (its NetworkError included), the boundary would show it under the generic "Oops!" title, never the connection wording, with its own message or the generic fallback when that is empty |
| ErrorBoundaryComponent.DefaultApiNetworkErrorShown | src/components/common/ErrorBoundary/ErrorBoundary.tsx:42-45 | the default API NetworkError is shown as "Oops!" with the text "Network error occurred", not with the connection wording |
| ErrorBoundaryComponent.ErrorBoundary.constructor | src/components/common/ErrorBoundary/ErrorBoundary.tsx:49-54 | no error, no details, retry count 0 |
| ErrorBoundaryComponent.ErrorBoundary.CatchError | src/components/common/ErrorBoundary/ErrorBoundary.tsx:56-66 | the error and its details are recorded and the retry count is kept; `onError`, when given, receives them |
| ErrorBoundaryComponent.ErrorBoundary.ResetErrorState | src/components/common/ErrorBoundary/ErrorBoundary.tsx:79-85 | error and details are cleared; the retry count is kept |
| ErrorBoundaryComponent.ErrorBoundary.HandleReset | src/components/common/ErrorBoundary/ErrorBoundary.tsx:87-104 | the retry count goes up by exactly one; when it reaches the limit, only the count changes, otherwise the error is cleared; while the error stays shown, "Try Again" is no longer offered |
| ErrorBoundaryComponent.ErrorBoundary.ComponentDidUpdate | src/components/common/ErrorBoundary/ErrorBoundary.tsx:68-77 | the error is cleared exactly when both key lists are given, differ, and an error is shown; the retry count never changes |

## Left out

- Rendering: the JSX of every component, including `ErrorBoundary.render`, the
  fallback prop and the development-only details. It is presentation; only its
  `canRetry` test is modelled, as `CanRetry`.
- `useIntersectionObserver`, `window.location.reload`, `console.error`: browser APIs.
- The HTTP client, `createAsyncThunk` and the store plumbing. Responses are
  inputs. A thunk is its pending case followed by its fulfilled or rejected case.
- The one-second delay between retries (`setTimeout`): it affects timing only.
  Two gateway calls that interleave while awaiting are not modelled; each call runs
  to completion.
- `apiCache` (src/api/utils/apiCache.ts:44) is one cache shared by both gateway
  operations; the model gives each payload type its own `Cache.ApiCache<T>`. This
  is sound because `NewsService.ListAndArticleKeysDisjoint` shows a list key never
  equals an article key, so neither operation ever reads the other's entries. A
  `clear` of the shared cache empties both, which the split does not show.
- `getApiKey` and its "not configured" error: it reads the environment. The key is
  an input string.
- `localeCompare`: names are ordered by character code, which agrees with locale
  order on the ASCII parameter names the service uses.
- Locale and date formatting of articles.
- NewsService.GetTopTechNews: requires the network sequence to answer every
  possible attempt (at least MAX_RETRIES + 1 outcomes). Outcomes beyond the last
  attempt made are unused.
- NewsService.CachedFetch: a cached payload is treated as truthy, so the model
  assumes the payload is present. The source would refetch a falsy cached value,
  and `getArticleById` caches `data.response.content`, which is undefined when a
  successful body has no `content`; `ArticleDetailState.Valid`'s
  `Succeeded ==> article.Some?` rests on the same assumption.
- CacheKey.GenerateKey: numeric parameter values are integers; rendering of
  fractional numbers is not modelled, nor the exponent form (`1e+21`) JavaScript
  uses for magnitudes of 10^21 and above.
- ErrorBoundaryComponent.ErrorBoundary.ComponentDidUpdate: `isEqual` is modelled
  as equality of the key sequences; numeric keys are integers.
