/**
 * `newsService`: the error classifier `handleApiError`, the retrying call
 * `fetchWithRetry`, and the two gateway operations that put a cache in front of
 * it. The network is a sequence of outcomes, one consumed per attempt; the
 * fixed delay between attempts is not modelled.
 */
module NewsService {
  import opened Wrappers
  import opened ApiErrors
  import Cache
  import CacheKey
  import Text
  import StringOrder

  /** `API_CONFIG.RETRY_CONFIG.MAX_RETRIES` */
  const MAX_RETRIES: nat := 3

  const SEARCH_PATH: string := "/search"
  const TECHNOLOGY_SECTION: string := "technology"
  const LIST_FIELDS: string := "thumbnail,trailText"
  const DETAIL_FIELDS: string := "thumbnail,trailText,body"
  const NEWS_FAILURE_MESSAGE: string := "Failed to fetch tech news"
  const ARTICLE_FAILURE_MESSAGE: string := "Failed to fetch article"
  /** Every 404 is reported against this resource name, whatever the endpoint. */
  const NOT_FOUND_RESOURCE: string := "Article"

  datatype HttpResponse = HttpResponse(status: int, data: Body)

  /** What a failed call throws. */
  datatype RawError =
      /** An HTTP-client error: `response` when one arrived, `request` when its `request` field is truthy. */
    | TransportError(response: Option<HttpResponse>, request: bool)
      /** A `NetworkError` of this layer thrown by the call itself. */
    | AlreadyNetworkError(message: string)

  /**
   * `apiError.request` is truthy: the only thing the retry test looks at. A
   * `NetworkError` thrown by the call itself has no `request` field, so it is
   * never retried.
   */
  predicate HasRequest(e: RawError)
    ensures HasRequest(e) ==> e.TransportError?
    ensures e.AlreadyNetworkError? ==> !HasRequest(e)
  {
    e.TransportError? && e.request
  }

  /**
   * `handleApiError(error, customMessage)`: the error it throws. It never returns
   * normally, so the model returns the thrown error.
   */
  function HandleApiError(error: RawError, customMessage: string): (thrown: ApiError)
    ensures thrown.NotFoundError? <==> error.TransportError? && error.response.Some? && error.response.value.status == 404
    ensures thrown.NotFoundError? ==> thrown == NotFoundError(NOT_FOUND_RESOURCE)
    ensures error.TransportError? && error.response.Some? && error.response.value.status != 404 ==>
              thrown == ApiError(customMessage, Some(error.response.value.status), Some(error.response.value.data))
    ensures thrown.NetworkError? <==> error.AlreadyNetworkError? || (error.TransportError? && error.response.None? && error.request)
    ensures error.AlreadyNetworkError? ==> thrown == NetworkError(error.message)
    ensures error.TransportError? && error.response.None? && error.request ==> thrown == NewNetworkError()
    ensures error.TransportError? && error.response.None? && !error.request ==> thrown == ApiError(customMessage, None, None)
  {
    match error
    case TransportError(Some(response), _) =>
      if response.status == 404 then NotFoundError(NOT_FOUND_RESOURCE)
      else ApiError(customMessage, Some(response.status), Some(response.data))
    case AlreadyNetworkError(message) => NetworkError(message)
    case TransportError(None, request) =>
      if request then NewNetworkError() else ApiError(customMessage, None, None)
  }

  /** The outcome of the last attempt and the number of attempts made. */
  datatype Fetched<T> = Fetched(outcome: Result<T, RawError>, attempts: nat)

  /**
   * `fetchWithRetry(apiCall, retries)` as the source writes it, recursively: the
   * result is the first outcome that is a success or a failure without `request`,
   * or the outcome of attempt `retries + 1` when every earlier one failed with `request`.
   */
  function RetryOutcome<T>(network: seq<Result<T, RawError>>, retries: nat): (f: Fetched<T>)
    requires |network| > retries
    ensures 1 <= f.attempts <= retries + 1
    ensures f.outcome == network[f.attempts - 1]
    ensures forall i | 0 <= i < f.attempts - 1 :: network[i].Failure? && HasRequest(network[i].error)
    ensures f.outcome.Success? || !HasRequest(f.outcome.error) || f.attempts == retries + 1
    decreases retries
  {
    match network[0]
    case Success(_) => Fetched(network[0], 1)
    case Failure(e) =>
      if HasRequest(e) && retries > 0 then
        var rest := RetryOutcome(network[1..], retries - 1);
        Fetched(rest.outcome, rest.attempts + 1)
      else
        Fetched(network[0], 1)
  }

  /** `fetchWithRetry(apiCall)` with the default budget, as a loop with an attempt counter. */
  method FetchWithRetry<T>(network: seq<Result<T, RawError>>) returns (outcome: Result<T, RawError>, attempts: nat)
    requires |network| > MAX_RETRIES
    ensures Fetched(outcome, attempts) == RetryOutcome(network, MAX_RETRIES)
    ensures 1 <= attempts <= MAX_RETRIES + 1
  {
    var retries: nat := MAX_RETRIES;
    outcome := network[0];
    attempts := 1;
    while outcome.Failure? && HasRequest(outcome.error) && retries > 0
      invariant 1 <= attempts && attempts + retries == MAX_RETRIES + 1
      invariant outcome == network[attempts - 1]
      invariant RetryOutcome(network, MAX_RETRIES)
             == var rest := RetryOutcome(network[attempts - 1..], retries); Fetched(rest.outcome, rest.attempts + attempts - 1)
      decreases retries
    {
      assert network[attempts - 1..][1..] == network[attempts..];
      retries := retries - 1;
      outcome := network[attempts];
      attempts := attempts + 1;
    }
  }

  /** A first success is returned at once: one attempt. */
  lemma FirstSuccessReturned<T>(network: seq<Result<T, RawError>>)
    requires |network| > MAX_RETRIES && network[0].Success?
    ensures RetryOutcome(network, MAX_RETRIES) == Fetched(network[0], 1)
  {
  }

  /** A failure without `request` (a 404 without it, say) is rethrown after one attempt. */
  lemma FailureWithoutRequestNotRetried<T>(network: seq<Result<T, RawError>>)
    requires |network| > MAX_RETRIES && network[0].Failure? && !HasRequest(network[0].error)
    ensures RetryOutcome(network, MAX_RETRIES) == Fetched(network[0], 1)
  {
  }

  /** One connection failure followed by a success: two attempts, and the success is returned. */
  lemma RetryThenSucceed<T>(network: seq<Result<T, RawError>>, v: T)
    requires |network| > MAX_RETRIES
    requires network[0] == Failure(TransportError(None, true)) && network[1] == Success(v)
    ensures RetryOutcome(network, MAX_RETRIES) == Fetched(Success(v), 2)
  {
  }

  /**
   * Four connection failures in a row exhaust the budget: exactly `MAX_RETRIES + 1`
   * attempts, and the failure is classified as a `NetworkError`.
   */
  lemma RetriesExhausted<T>(network: seq<Result<T, RawError>>, customMessage: string)
    requires |network| > MAX_RETRIES
    requires forall i | 0 <= i <= MAX_RETRIES :: network[i] == Failure(TransportError(None, true))
    ensures RetryOutcome(network, MAX_RETRIES).attempts == MAX_RETRIES + 1
    ensures HandleApiError(RetryOutcome(network, MAX_RETRIES).outcome.error, customMessage) == NewNetworkError()
  {
  }

  /**
   * The retry test looks only at `request`: an error that carries a response AND a
   * truthy `request` is retried as well, and a 404 of that kind is still classified
   * as `NotFoundError` once the budget is spent.
   */
  lemma ResponseWithRequestIsRetried<T>(network: seq<Result<T, RawError>>, response: HttpResponse)
    requires |network| > MAX_RETRIES
    requires forall i | 0 <= i <= MAX_RETRIES :: network[i] == Failure(TransportError(Some(response), true))
    ensures RetryOutcome(network, MAX_RETRIES).attempts == MAX_RETRIES + 1
    ensures response.status == 404 ==>
              HandleApiError(RetryOutcome(network, MAX_RETRIES).outcome.error, ARTICLE_FAILURE_MESSAGE) == NotFoundError("Article")
  {
  }

  /** The query parameters of the list request, in the order the source writes them. */
  function ListParams(page: int, apiKey: string): (ps: seq<CacheKey.Param>)
    ensures |ps| == 4 && CacheKey.DistinctKeys(ps)
    ensures CacheKey.Param("page", CacheKey.Str(Text.IntToString(page))) in ps
    ensures CacheKey.Param("api-key", CacheKey.Str(apiKey)) in ps
  {
    [ CacheKey.Param("section", CacheKey.Str(TECHNOLOGY_SECTION)),
      CacheKey.Param("page", CacheKey.Str(Text.IntToString(page))),
      CacheKey.Param("api-key", CacheKey.Str(apiKey)),
      CacheKey.Param("show-fields", CacheKey.Str(LIST_FIELDS)) ]
  }

  /** The query parameters of the by-id request. */
  function ArticleParams(apiKey: string): (ps: seq<CacheKey.Param>)
    ensures |ps| == 2 && CacheKey.DistinctKeys(ps)
    ensures CacheKey.Param("api-key", CacheKey.Str(apiKey)) in ps
  {
    [ CacheKey.Param("api-key", CacheKey.Str(apiKey)),
      CacheKey.Param("show-fields", CacheKey.Str(DETAIL_FIELDS)) ]
  }

  /** The cache key of the list request for `page`: its parameters in name order. */
  function ListKey(page: int, apiKey: string): (key: string)
    ensures key == SEARCH_PATH + "?" + ("api-key=" + apiKey) + "&" + ("page=" + Text.IntToString(page))
                  + "&" + ("section=" + TECHNOLOGY_SECTION) + "&" + ("show-fields=" + LIST_FIELDS)
  {
    ListKeyText(page, apiKey);
    CacheKey.GenerateKey(SEARCH_PATH, ListParams(page, apiKey))
  }

  lemma ListKeyText(page: int, apiKey: string)
    ensures CacheKey.GenerateKey(SEARCH_PATH, ListParams(page, apiKey))
            == SEARCH_PATH + "?" + ("api-key=" + apiKey) + "&" + ("page=" + Text.IntToString(page))
               + "&" + ("section=" + TECHNOLOGY_SECTION) + "&" + ("show-fields=" + LIST_FIELDS)
  {
    ListKeySorted(page, apiKey);
    ListJoin(page, apiKey);
    AppendFourPairs(SEARCH_PATH, Text.Join(CacheKey.Pairs(ListParamsSorted(page, apiKey)), "&"),
                    "api-key=" + apiKey, "page=" + Text.IntToString(page),
                    "section=" + TECHNOLOGY_SECTION, "show-fields=" + LIST_FIELDS);
  }

  lemma AppendFourPairs(path: string, query: string, a: string, b: string, c: string, d: string)
    requires query == a + "&" + b + "&" + c + "&" + d
    ensures path + "?" + query == path + "?" + a + "&" + b + "&" + c + "&" + d
  {
  }

  lemma ListJoin(page: int, apiKey: string)
    ensures Text.Join(CacheKey.Pairs(ListParamsSorted(page, apiKey)), "&")
            == ("api-key=" + apiKey) + "&" + ("page=" + Text.IntToString(page))
               + "&" + ("section=" + TECHNOLOGY_SECTION) + "&" + ("show-fields=" + LIST_FIELDS)
  {
    ListPairs(page, apiKey);
    JoinOfFour("api-key=" + apiKey, "page=" + Text.IntToString(page),
               "section=" + TECHNOLOGY_SECTION, "show-fields=" + LIST_FIELDS, "&");
  }

  /** The list parameters in name order: api-key, page, section, show-fields. */
  function ListParamsSorted(page: int, apiKey: string): seq<CacheKey.Param> {
    var ps := ListParams(page, apiKey);
    [ps[2], ps[1], ps[0], ps[3]]
  }

  lemma ListKeySorted(page: int, apiKey: string)
    ensures CacheKey.GenerateKey(SEARCH_PATH, ListParams(page, apiKey))
            == SEARCH_PATH + "?" + Text.Join(CacheKey.Pairs(ListParamsSorted(page, apiKey)), "&")
  {
    var ps := ListParams(page, apiKey);
    var sorted := ListParamsSorted(page, apiKey);
    ListParamsSortedOrdered(page, apiKey);
    assert multiset(sorted) == multiset(ps);
    CacheKey.GenerateKeyIsSortedJoin(SEARCH_PATH, ps, sorted);
  }

  lemma ListParamsSortedOrdered(page: int, apiKey: string)
    ensures CacheKey.SortedByKey(ListParamsSorted(page, apiKey))
  {
    ListNamesOrdered();
  }

  /** The four list parameter names in character-code order. */
  lemma ListNamesOrdered()
    ensures StringOrder.Less("api-key", "page") && StringOrder.Less("api-key", "section")
         && StringOrder.Less("api-key", "show-fields") && StringOrder.Less("page", "section")
         && StringOrder.Less("page", "show-fields") && StringOrder.Less("section", "show-fields")
  {
  }

  lemma ListPairs(page: int, apiKey: string)
    ensures CacheKey.Pairs(ListParamsSorted(page, apiKey))
            == ["api-key=" + apiKey, "page=" + Text.IntToString(page),
                "section=" + TECHNOLOGY_SECTION, "show-fields=" + LIST_FIELDS]
  {
    assert CacheKey.PairText(CacheKey.Param("api-key", CacheKey.Str(apiKey))) == "api-key=" + apiKey;
    assert CacheKey.PairText(CacheKey.Param("page", CacheKey.Str(Text.IntToString(page)))) == "page=" + Text.IntToString(page);
    assert CacheKey.PairText(CacheKey.Param("section", CacheKey.Str(TECHNOLOGY_SECTION))) == "section=" + TECHNOLOGY_SECTION;
    assert CacheKey.PairText(CacheKey.Param("show-fields", CacheKey.Str(LIST_FIELDS))) == "show-fields=" + LIST_FIELDS;
  }

  lemma JoinOfFour(a: string, b: string, c: string, d: string, sep: string)
    ensures Text.Join([a, b, c, d], sep) == a + sep + b + sep + c + sep + d
  {
    assert [a, b, c, d] == [a, b, c] + [d];
    Text.JoinSnoc([a, b, c], d, sep);
    CacheKey.JoinOfThree(a, b, c, sep);
  }

  /** The cache key of the by-id request for `id`. */
  function ArticleKey(id: string, apiKey: string): (key: string)
    ensures key == "/" + id + "?" + ("api-key=" + apiKey) + "&" + ("show-fields=" + DETAIL_FIELDS)
  {
    ArticleKeyText(id, apiKey);
    CacheKey.GenerateKey("/" + id, ArticleParams(apiKey))
  }

  lemma ArticleKeyText(id: string, apiKey: string)
    ensures CacheKey.GenerateKey("/" + id, ArticleParams(apiKey))
            == "/" + id + "?" + ("api-key=" + apiKey) + "&" + ("show-fields=" + DETAIL_FIELDS)
  {
    ArticleKeySorted(id, apiKey);
    ArticlePairs(apiKey);
    var texts := ["api-key=" + apiKey, "show-fields=" + DETAIL_FIELDS];
    JoinOfTwo(texts[0], texts[1], "&");
  }

  lemma ArticleKeySorted(id: string, apiKey: string)
    ensures CacheKey.GenerateKey("/" + id, ArticleParams(apiKey))
            == "/" + id + "?" + Text.Join(CacheKey.Pairs(ArticleParams(apiKey)), "&")
  {
    var ps := ArticleParams(apiKey);
    assert StringOrder.Less("api-key", "show-fields");
    assert CacheKey.SortedByKey(ps);
    CacheKey.GenerateKeyIsSortedJoin("/" + id, ps, ps);
  }

  lemma ArticlePairs(apiKey: string)
    ensures CacheKey.Pairs(ArticleParams(apiKey)) == ["api-key=" + apiKey, "show-fields=" + DETAIL_FIELDS]
  {
    assert CacheKey.PairText(CacheKey.Param("api-key", CacheKey.Str(apiKey))) == "api-key=" + apiKey;
    assert CacheKey.PairText(CacheKey.Param("show-fields", CacheKey.Str(DETAIL_FIELDS))) == "show-fields=" + DETAIL_FIELDS;
  }

  lemma JoinOfTwo(a: string, b: string, sep: string)
    ensures Text.Join([a, b], sep) == a + sep + b
  {
    assert [a, b][1..] == [b];
  }

  /** Different pages are cached under different keys. */
  lemma ListKeysDistinguishPages(page1: int, page2: int, apiKey: string)
    requires page1 != page2
    ensures ListKey(page1, apiKey) != ListKey(page2, apiKey)
  {
    var d1, d2 := Text.IntToString(page1), Text.IntToString(page2);
    Text.IntToStringInjective(page1, page2);
    var m1, m2 := "page=" + d1, "page=" + d2;
    assert m1 != m2 by {
      assert m1[5..] == d1 && m2[5..] == d2;
    }
    var a, c, d := "api-key=" + apiKey, "section=" + TECHNOLOGY_SECTION, "show-fields=" + LIST_FIELDS;
    SplitAroundMiddle(SEARCH_PATH, a, m1, c, d);
    SplitAroundMiddle(SEARCH_PATH, a, m2, c, d);
    CancelSurroundings(SEARCH_PATH + "?" + a + "&", m1, m2, "&" + c + "&" + d);
  }

  lemma SplitAroundMiddle(path: string, a: string, m: string, c: string, d: string)
    ensures path + "?" + a + "&" + m + "&" + c + "&" + d == (path + "?" + a + "&") + m + ("&" + c + "&" + d)
  {
  }

  /** Different articles are cached under different keys. */
  lemma ArticleKeysDistinguishIds(id1: string, id2: string, apiKey: string)
    requires id1 != id2
    ensures ArticleKey(id1, apiKey) != ArticleKey(id2, apiKey)
  {
    var a, d := "api-key=" + apiKey, "show-fields=" + DETAIL_FIELDS;
    SplitAfterId(id1, a, d);
    SplitAfterId(id2, a, d);
    CancelSurroundings("/", id1, id2, "?" + a + "&" + d);
  }

  /**
   * A list key never equals an article key: the list key ends with the list
   * fields (`…trailText`), the article key with the detail fields (`…body`).
   * So both gateways can share one cache without reading each other's entries.
   */
  lemma ListAndArticleKeysDisjoint(page: int, id: string, apiKey: string)
    ensures ListKey(page, apiKey) != ArticleKey(id, apiKey)
  {
    var l, k := ListKey(page, apiKey), ArticleKey(id, apiKey);
    assert l[|l| - 1] == LIST_FIELDS[|LIST_FIELDS| - 1] == 't';
    assert k[|k| - 1] == DETAIL_FIELDS[|DETAIL_FIELDS| - 1] == 'y';
  }

  lemma SplitAfterId(id: string, a: string, d: string)
    ensures "/" + id + "?" + a + "&" + d == "/" + id + ("?" + a + "&" + d)
  {
  }

  /** Strings that differ stay different between the same prefix and suffix. */
  lemma CancelSurroundings(prefix: string, x: string, y: string, suffix: string)
    requires x != y
    ensures prefix + x + suffix != prefix + y + suffix
  {
    var a, b := prefix + x + suffix, prefix + y + suffix;
    if |x| == |y| {
      var i :| 0 <= i < |x| && x[i] != y[i];
      assert a[|prefix| + i] == x[i] && b[|prefix| + i] == y[i];
    } else {
      assert |a| != |b|;
    }
  }

  /**
   * One gateway call: `hit` is what the cache read at `readAt` returned. A hit is
   * returned with no attempt and no change. On a miss the retrying fetch runs; a
   * success is returned and stored, stamped `writeAt`; a failure is classified
   * with `failureMessage` and the cache keeps only what the read left.
   */
  ghost predicate CachedFetchSpec<T>(
    before: map<string, Cache.CacheItem<T>>, after: map<string, Cache.CacheItem<T>>,
    key: string, failureMessage: string, readAt: int, writeAt: int,
    network: seq<Result<T, RawError>>, r: Result<T, ApiError>, attempts: nat)
    requires |network| > MAX_RETRIES
    ensures CachedFetchSpec(before, after, key, failureMessage, readAt, writeAt, network, r, attempts) ==>
              && attempts <= MAX_RETRIES + 1
              && (attempts == 0 <==> Cache.Lookup(before, key, readAt).Some?)
              && (attempts == 0 ==> r.Success? && after == before)
              && (attempts == 0 ==> r == Success(Cache.Lookup(before, key, readAt).value))
              && (r.Failure? ==> forall k | k in after :: k in before && after[k] == before[k])
              && (r.Success? && attempts > 0 ==> Cache.Lookup(after, key, writeAt) == Some(r.value))
  {
    var hit := Cache.Lookup(before, key, readAt);
    if hit.Some? then
      r == Success(hit.value) && attempts == 0 && after == before
    else
      var f := RetryOutcome(network, MAX_RETRIES);
      && attempts == f.attempts
      && match f.outcome
         case Success(v) => r == Success(v) && after == before[key := Cache.CacheItem(v, writeAt)]
         case Failure(e) => r == Failure(HandleApiError(e, failureMessage)) && after == Cache.AfterLookup(before, key, readAt)
  }

  /** The cache-then-fetch sequence both gateway operations follow. */
  method CachedFetch<T>(
    cache: Cache.ApiCache<T>, key: string, failureMessage: string, readAt: int, writeAt: int,
    network: seq<Result<T, RawError>>)
    returns (r: Result<T, ApiError>, attempts: nat)
    requires |network| > MAX_RETRIES
    modifies cache
    ensures CachedFetchSpec(old(cache.entries), cache.entries, key, failureMessage, readAt, writeAt, network, r, attempts)
  {
    var cached := cache.Get(key, readAt);
    if cached.Some? {
      return Success(cached.value), 0;
    }
    var outcome;
    outcome, attempts := FetchWithRetry(network);
    match outcome
    case Success(v) =>
      cache.Set(key, v, writeAt);
      r := Success(v);
    case Failure(e) =>
      r := Failure(HandleApiError(e, failureMessage));
  }

  /** `getTopTechNews(page = 1)`: one page of the technology section. */
  method GetTopTechNews<T>(
    cache: Cache.ApiCache<T>, apiKey: string, readAt: int, writeAt: int,
    network: seq<Result<T, RawError>>, page: int := 1)
    returns (r: Result<T, ApiError>, attempts: nat)
    requires |network| > MAX_RETRIES
    modifies cache
    ensures CachedFetchSpec(old(cache.entries), cache.entries,
                            ListKey(page, apiKey), NEWS_FAILURE_MESSAGE,
                            readAt, writeAt, network, r, attempts)
  {
    r, attempts := CachedFetch(cache, ListKey(page, apiKey),
                               NEWS_FAILURE_MESSAGE, readAt, writeAt, network);
  }

  /** `getArticleById(id)`: one article; the network outcome is the unwrapped `response.content`. */
  method GetArticleById<T>(
    cache: Cache.ApiCache<T>, id: string, apiKey: string, readAt: int, writeAt: int,
    network: seq<Result<T, RawError>>)
    returns (r: Result<T, ApiError>, attempts: nat)
    requires |network| > MAX_RETRIES
    modifies cache
    ensures CachedFetchSpec(old(cache.entries), cache.entries,
                            ArticleKey(id, apiKey), ARTICLE_FAILURE_MESSAGE,
                            readAt, writeAt, network, r, attempts)
  {
    r, attempts := CachedFetch(cache, ArticleKey(id, apiKey),
                               ARTICLE_FAILURE_MESSAGE, readAt, writeAt, network);
  }
}
