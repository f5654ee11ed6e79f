/**
 * The `articleDetail` slice: the article on display, its loading phase and the
 * last error. Two thunks feed it, `setCurrentArticle` and `fetchArticleById`,
 * each with its own fallback error text.
 */
module ArticleDetailSlice {
  import opened Wrappers
  import opened NewsTypes
  import ApiErrors
  import Cache
  import NewsService

  datatype Thunk = SetCurrentArticle | FetchArticleById

  /** The text used when a rejection carries no message. */
  function DefaultErrorMessage(thunk: Thunk): (m: string)
    ensures m != ""
  {
    match thunk
    case SetCurrentArticle => "Failed to set article"
    case FetchArticleById => "Failed to fetch article"
  }

  /** `action.error.message || <fallback>`: an empty message stands for a missing one. */
  function RejectionMessage(thunk: Thunk, message: string): (m: string)
    ensures m != ""
    ensures message != "" ==> m == message
    ensures message == "" ==> m == DefaultErrorMessage(thunk)
  {
    if message != "" then message else DefaultErrorMessage(thunk)
  }

  class ArticleDetailState {
    var article: Option<Article>
    var status: Status
    var error: Option<string>

    /**
     * What every reachable state satisfies: idle means nothing loaded and no
     * error, a success has an article, a failure has a non-empty error.
     */
    ghost predicate Valid()
      reads this
    {
      && (status == Idle ==> article == None && error == None)
      && (status == Succeeded ==> article.Some?)
      && (status == Failed ==> error.Some?)
      && (error.Some? ==> error.value != "")
    }

    /** `initialState` */
    constructor()
      ensures Valid()
      ensures article == None && status == Idle && error == None
    {
      article, status, error := None, Idle, None;
    }

    /** `clearArticle`: back to the initial state, from any state. */
    method ClearArticle()
      modifies this
      ensures Valid()
      ensures article == None && status == Idle && error == None
    {
      article := None;
      status := Idle;
      error := None;
    }

    /** `<thunk>.pending`: only the phase changes. */
    method Pending(thunk: Thunk)
      requires Valid()
      modifies this
      ensures Valid()
      ensures status == Loading && article == old(article) && error == old(error)
    {
      status := Loading;
    }

    /** `<thunk>.fulfilled`: the payload becomes the article; an earlier error is kept. */
    method Fulfilled(thunk: Thunk, payload: Article)
      requires Valid()
      modifies this
      ensures Valid()
      ensures status == Succeeded && article == Some(payload) && error == old(error)
    {
      status := Succeeded;
      article := Some(payload);
    }

    /** `<thunk>.rejected`: the article on display is kept. */
    method Rejected(thunk: Thunk, message: string)
      requires Valid()
      modifies this
      ensures Valid()
      ensures status == Failed && error == Some(RejectionMessage(thunk, message)) && article == old(article)
    {
      status := Failed;
      error := Some(RejectionMessage(thunk, message));
    }
  }

  /**
   * `dispatch(setCurrentArticle(article))`: the thunk only returns its
   * argument, so it never rejects and the article becomes the one on display.
   */
  method SetCurrentArticleThunk(state: ArticleDetailState, article: Article)
    requires state.Valid()
    modifies state
    ensures state.Valid()
    ensures state.status == Succeeded && state.article == Some(article) && state.error == old(state.error)
  {
    state.Pending(SetCurrentArticle);
    state.Fulfilled(SetCurrentArticle, article);
  }

  /**
   * `dispatch(fetchArticleById(id))`: pending, then the gateway call, then the
   * fulfilled case with the article or the rejected case with the message of
   * the classified error the gateway threw.
   */
  method FetchArticleByIdThunk(
    state: ArticleDetailState, cache: Cache.ApiCache<Article>, id: string, apiKey: string,
    readAt: int, writeAt: int, network: seq<Result<Article, NewsService.RawError>>)
    returns (r: Result<Article, ApiErrors.ApiError>)
    requires state.Valid()
    requires |network| > NewsService.MAX_RETRIES
    modifies state, cache
    ensures state.Valid()
    ensures exists attempts: nat :: NewsService.CachedFetchSpec(
              old(cache.entries), cache.entries,
              NewsService.ArticleKey(id, apiKey), NewsService.ARTICLE_FAILURE_MESSAGE,
              readAt, writeAt, network, r, attempts)
    ensures r.Success? ==> state.status == Succeeded && state.article == Some(r.value) && state.error == old(state.error)
    ensures r.Failure? ==>
              && state.status == Failed && state.article == old(state.article)
              && state.error == Some(RejectionMessage(FetchArticleById, r.error.Message()))
  {
    state.Pending(FetchArticleById);
    var attempts;
    r, attempts := NewsService.GetArticleById(cache, id, apiKey, readAt, writeAt, network);
    match r
    case Success(a) => state.Fulfilled(FetchArticleById, a);
    case Failure(e) => state.Rejected(FetchArticleById, e.Message());
  }

  /**
   * A fetch that misses the cache and whose last attempt got a 404, with any
   * body and whether or not `request` was set, fails with `NotFoundError` and
   * shows as "Article not found" in the detail view.
   */
  lemma NotFoundShownAsArticleNotFound(
    before: map<string, Cache.CacheItem<Article>>, after: map<string, Cache.CacheItem<Article>>,
    key: string, readAt: int, writeAt: int, network: seq<Result<Article, NewsService.RawError>>,
    r: Result<Article, ApiErrors.ApiError>, attempts: nat)
    requires |network| > NewsService.MAX_RETRIES
    requires NewsService.CachedFetchSpec(before, after, key, NewsService.ARTICLE_FAILURE_MESSAGE,
                                         readAt, writeAt, network, r, attempts)
    requires Cache.Lookup(before, key, readAt).None?
    requires NewsService.RetryOutcome(network, NewsService.MAX_RETRIES).outcome.Failure?
    requires NewsService.RetryOutcome(network, NewsService.MAX_RETRIES).outcome.error.TransportError?
    requires NewsService.RetryOutcome(network, NewsService.MAX_RETRIES).outcome.error.response.Some?
    requires NewsService.RetryOutcome(network, NewsService.MAX_RETRIES).outcome.error.response.value.status == 404
    ensures r == Failure(ApiErrors.NotFoundError("Article"))
    ensures RejectionMessage(FetchArticleById, r.error.Message()) == "Article not found"
  {
    var e := NewsService.RetryOutcome(network, NewsService.MAX_RETRIES).outcome.error;
    assert r == Failure(NewsService.HandleApiError(e, NewsService.ARTICLE_FAILURE_MESSAGE));
    NotFoundText();
  }

  /** The text the detail view shows for the gateway's `NotFoundError`. */
  lemma NotFoundText()
    ensures RejectionMessage(FetchArticleById, ApiErrors.NotFoundError(NewsService.NOT_FOUND_RESOURCE).Message())
            == "Article not found"
  {
  }
}
