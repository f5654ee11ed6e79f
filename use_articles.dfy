/**
 * The `useArticles` hook: the effect that requests the first page once, and
 * `loadMore`, which asks for the page after the ones already shown. The hook
 * drives the `articles` slice; the page size of the list endpoint is 10.
 */
module UseArticles {
  import opened Wrappers
  import opened NewsTypes
  import ArticlesSlice

  const PAGE_SIZE: nat := 10

  /**
   * The effect's guard: nothing loaded yet and no request ever made. Whenever
   * it holds, `loadMore` would ask for the same page 1.
   */
  predicate ShouldFetchInitially(itemCount: nat, status: Status)
    ensures ShouldFetchInitially(itemCount, status) ==> LoadMoreRequest(status, true, itemCount) == Some(1)
  {
    itemCount == 0 && status == Idle
  }

  /**
   * `Math.ceil(n / 10) + 1`: one past the number of pages of ten that the
   * `n` items already shown fill, the last possibly partly.
   */
  function NextPage(n: nat): (page: int)
    ensures page >= 1
    ensures PAGE_SIZE * (page - 1) >= n
    ensures page == 1 || PAGE_SIZE * (page - 2) < n
    ensures n > 0 ==> page >= 2
  {
    (n + PAGE_SIZE - 1) / PAGE_SIZE + 1
  }

  /** The page `loadMore` requests, or None when it does nothing. */
  function LoadMoreRequest(status: Status, hasMore: bool, itemCount: nat): (r: Option<int>)
    ensures r.Some? <==> status != Loading && hasMore
    ensures r.Some? ==> r.value == NextPage(itemCount)
  {
    if status != Loading && hasMore then Some(NextPage(itemCount)) else None
  }

  /** The page numbers `loadMore` asks for after 0, 10 and 11 items. */
  lemma NextPageExamples()
    ensures NextPage(0) == 1 && NextPage(10) == 2 && NextPage(11) == 3
  {
  }

  /** Exactly one page number satisfies the ceiling bounds: they characterise `NextPage`. */
  lemma NextPageUnique(n: nat, page: int)
    requires page >= 1 && PAGE_SIZE * (page - 1) >= n
    requires page == 1 || PAGE_SIZE * (page - 2) < n
    ensures page == NextPage(n)
  {
  }

  /**
   * The effect body: requests page 1 when the guard holds, which is only in the
   * initial state (page 1, more pages assumed, no error). Afterwards the guard
   * is false whatever happened, so the effect requests page 1 at most once.
   */
  method InitialLoad(state: ArticlesSlice.ArticlesState, outcome: ArticlesSlice.PageOutcome) returns (requested: bool)
    requires state.Valid()
    modifies state
    ensures state.Valid()
    ensures requested <==> ShouldFetchInitially(|old(state.items)|, old(state.status))
    ensures requested ==> old(state.currentPage) == 1 && old(state.hasMore) && old(state.error) == None
    ensures !requested ==> unchanged(state)
    ensures requested && outcome.Resolved? ==> state.status == Succeeded && state.error == None
    ensures requested && outcome.Resolved? && outcome.results.None? ==>
              state.items == [] && state.currentPage == 1 && state.hasMore
    ensures requested && outcome.Resolved? && outcome.results.Some? ==>
              && state.items == outcome.results.value && state.currentPage == 1
              && state.hasMore == (|outcome.results.value| > 0)
    ensures requested && outcome.Rejected? ==>
              && state.status == Failed && state.error == Some(ArticlesSlice.RejectionMessage(outcome.message))
              && state.items == [] && state.currentPage == 1 && state.hasMore
    ensures !ShouldFetchInitially(|state.items|, state.status)
  {
    requested := |state.items| == 0 && state.status == Idle;
    if requested {
      state.FetchArticles(1, outcome);
    }
  }

  /**
   * `loadMore`: does nothing while loading or when no more pages exist;
   * otherwise fetches the next page, whose results come after the items
   * already shown. The list only ever grows.
   */
  method LoadMore(state: ArticlesSlice.ArticlesState, outcome: ArticlesSlice.PageOutcome) returns (page: Option<int>)
    requires state.Valid()
    modifies state
    ensures state.Valid()
    ensures page == LoadMoreRequest(old(state.status), old(state.hasMore), |old(state.items)|)
    ensures page.None? ==> unchanged(state)
    ensures page.Some? && outcome.Resolved? ==> state.status == Succeeded && state.error == None
    ensures page.Some? && outcome.Resolved? && outcome.results.None? ==>
              && state.items == old(state.items)
              && state.currentPage == old(state.currentPage) && state.hasMore == old(state.hasMore)
    ensures page.Some? && outcome.Resolved? && outcome.results.Some? ==>
              && state.items == old(state.items) + outcome.results.value
              && state.currentPage == page.value
              && state.hasMore == (|outcome.results.value| > 0)
    ensures page.Some? && outcome.Rejected? ==>
              && state.status == Failed && state.error == Some(ArticlesSlice.RejectionMessage(outcome.message))
              && state.items == old(state.items)
              && state.currentPage == old(state.currentPage) && state.hasMore == old(state.hasMore)
    ensures old(state.items) <= state.items
  {
    page := LoadMoreRequest(state.status, state.hasMore, |state.items|);
    if page.Some? {
      ghost var before := state.items;
      state.FetchArticles(page.value, outcome);
      if outcome.Resolved? && outcome.results.Some? && page.value == 1 {
        // page 1 replaces the list, which was empty because page 1 is asked only for 0 items
        assert before == [];
        assert state.items == before + outcome.results.value;
      }
    }
  }
}
