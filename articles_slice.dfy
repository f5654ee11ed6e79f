/**
 * The `articles` slice: the accumulated list, its loading phase, the last error,
 * the last page loaded and whether more pages may exist. Each reducer case
 * assigns the fields of the state in place.
 */
module ArticlesSlice {
  import opened Wrappers
  import opened NewsTypes

  const FETCH_ARTICLES_FAILURE: string := "Failed to fetch articles"

  /** How the `fetchArticles(page)` request settled: `results` is `payload.response.results`, when present. */
  datatype PageOutcome = Resolved(results: Option<seq<Article>>) | Rejected(message: string)

  /** `action.error.message || 'Failed to fetch articles'`: an empty message stands for a missing one. */
  function RejectionMessage(message: string): (m: string)
    ensures m != ""
    ensures message != "" ==> m == message
    ensures message == "" ==> m == FETCH_ARTICLES_FAILURE
  {
    if message != "" then message else FETCH_ARTICLES_FAILURE
  }

  class ArticlesState {
    var items: seq<Article>
    var status: Status
    var error: Option<string>
    var currentPage: int
    var hasMore: bool

    /**
     * What every reachable state satisfies: only the initial state is idle, an
     * error is recorded exactly when the phase is failed, and it is never empty.
     */
    ghost predicate Valid()
      reads this
    {
      && (status == Idle ==> items == [] && error == None && currentPage == 1 && hasMore)
      && (error.Some? <==> status == Failed)
      && (error.Some? ==> error.value != "")
    }

    /** `initialState` */
    constructor()
      ensures Valid()
      ensures items == [] && status == Idle && error == None && currentPage == 1 && hasMore
    {
      items, status, error, currentPage, hasMore := [], Idle, None, 1, true;
    }

    /** `fetchArticles.pending` */
    method Pending()
      requires Valid()
      modifies this
      ensures Valid()
      ensures status == Loading && error == None
      ensures items == old(items) && currentPage == old(currentPage) && hasMore == old(hasMore)
    {
      status := Loading;
      error := None;
    }

    /** `fetchArticles.fulfilled` for the request of `page` */
    method Fulfilled(page: int, results: Option<seq<Article>>)
      requires Valid()
      modifies this
      ensures Valid()
      ensures status == Succeeded && error == None
      ensures results.None? ==> items == old(items) && currentPage == old(currentPage) && hasMore == old(hasMore)
      ensures results.Some? && page == 1 ==> items == results.value
      ensures results.Some? && page != 1 ==> items == old(items) + results.value
      ensures results.Some? ==> currentPage == page && hasMore == (|results.value| > 0)
    {
      status := Succeeded;
      error := None;
      if results.None? {
        return;
      }
      if page == 1 {
        items := results.value;
      } else {
        items := items + results.value;
      }
      currentPage := page;
      hasMore := |results.value| > 0;
    }

    /** `fetchArticles.rejected` */
    method Rejected(message: string)
      requires Valid()
      modifies this
      ensures Valid()
      ensures status == Failed && error == Some(RejectionMessage(message))
      ensures items == old(items) && currentPage == old(currentPage) && hasMore == old(hasMore)
    {
      status := Failed;
      error := Some(RejectionMessage(message));
    }

    /** `dispatch(fetchArticles(page))`: the pending case, then the case the request settled in. */
    method FetchArticles(page: int, outcome: PageOutcome)
      requires Valid()
      modifies this
      ensures Valid()
      ensures outcome.Resolved? ==> status == Succeeded && error == None
      ensures outcome.Resolved? && outcome.results.None? ==>
                items == old(items) && currentPage == old(currentPage) && hasMore == old(hasMore)
      ensures outcome.Resolved? && outcome.results.Some? ==>
                && items == (if page == 1 then outcome.results.value else old(items) + outcome.results.value)
                && currentPage == page && hasMore == (|outcome.results.value| > 0)
      ensures outcome.Rejected? ==>
                && status == Failed && error == Some(RejectionMessage(outcome.message))
                && items == old(items) && currentPage == old(currentPage) && hasMore == old(hasMore)
    {
      Pending();
      match outcome
      case Resolved(results) => Fulfilled(page, results);
      case Rejected(message) => Rejected(message);
    }
  }
}
