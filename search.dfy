/**
 * The search results page (movies-web/src/pages/Search.jsx): the query comes
 * from the `q` URL parameter, each request asks for one server page of 21
 * results, and the page shows at most the first 12 of them.
 */
module Search {
  import opened Wrappers
  import Js
  import Api

  /** `DISPLAY_PER_PAGE`. */
  const DisplayPerPage: nat := 12
  /** The `limit` every search request passes. */
  const RequestLimit: nat := 21

  /** The arguments of `searchMovies(query, currentPage, 21)`. */
  datatype SearchRequest = SearchRequest(query: string, page: int, limit: nat)

  /** `!query.trim()`: true exactly for a query made only of whitespace, the empty one included. */
  function IsBlank(query: string): (b: bool)
    ensures b <==> Js.AllWhitespace(query)
  {
    Js.TrimEmptyIffBlank(query);
    Js.Trim(query) == []
  }

  /** `results.slice(0, DISPLAY_PER_PAGE)`: the first `min(12, |results|)` results, in order. */
  function DisplayedResults<T>(results: seq<T>): (d: seq<T>)
    ensures |d| == if |results| < DisplayPerPage then |results| else DisplayPerPage
    ensures d == results[..|d|]
  {
    Js.Slice(results, 0, DisplayPerPage)
  }

  /** Whether the server reports a page after `currentPage`; a missing `total_pages` compares false. */
  predicate LaterPageReported(pagination: Option<Api.Pagination>, currentPage: int) {
    pagination.Some? && pagination.value.totalPages.Some? && currentPage < pagination.value.totalPages.value
  }

  /**
   * `hasMore`, which enables the "Next" button: when every fetched result is
   * on screen it follows the server's `total_pages` alone, and without
   * pagination it follows the number of results alone.
   */
  function HasMore(resultCount: nat, pagination: Option<Api.Pagination>, currentPage: int): (b: bool)
    ensures resultCount <= DisplayPerPage ==> (b <==> LaterPageReported(pagination, currentPage))
    ensures pagination.None? ==> (b <==> resultCount > DisplayPerPage)
    ensures resultCount > DisplayPerPage ==> b
  {
    resultCount > DisplayPerPage || LaterPageReported(pagination, currentPage)
  }

  /**
   * "Next" is disabled exactly when every fetched result is on screen and
   * the server reports no later page.
   */
  lemma NoMoreIffAllShown<T>(results: seq<T>, pagination: Option<Api.Pagination>, currentPage: int)
    ensures !HasMore(|results|, pagination, currentPage) <==>
      DisplayedResults(results) == results && !LaterPageReported(pagination, currentPage)
  {
    if DisplayedResults(results) == results {
      assert |results| <= DisplayPerPage;
    }
  }

  /**
   * Where server page `page` starts in the whole result list, assuming the
   * server pages by offset with the request's limit of 21.
   */
  function Offset(page: nat): nat
    requires 1 <= page
  {
    (page - 1) * RequestLimit
  }

  /**
   * The results a request for page `page` with limit 21 returns from the
   * whole result list `all`, under offset paging: the results from
   * `Offset(page)` on, at most 21 of them.
   */
  function ServerPage<T>(all: seq<T>, page: nat): (r: seq<T>)
    requires 1 <= page
    ensures |r| <= RequestLimit
    ensures Offset(page) + RequestLimit <= |all| ==> |r| == RequestLimit
    ensures forall i :: 0 <= i < |r| ==> Offset(page) + i < |all| && r[i] == all[Offset(page) + i]
  {
    Js.Slice(all, Offset(page), Offset(page) + RequestLimit)
  }

  /**
   * Every result the page shows for server page `page` is the result at
   * `Offset(page) + i` with `i < 12`; so a result whose position `g` in the
   * whole list has `g % 21 >= 12` (positions 13 to 21 of its server page)
   * is shown on no page, and "Next" (one page further, 21 results on) never
   * reaches it either.
   */
  lemma {:induction false} TailOfEveryPageHidden<T>(all: seq<T>, page: nat, g: nat)
    requires 1 <= page && g % RequestLimit >= DisplayPerPage
    ensures var shown := DisplayedResults(ServerPage(all, page));
      forall i :: 0 <= i < |shown| ==>
        Offset(page) + i < |all| && shown[i] == all[Offset(page) + i] && Offset(page) + i != g
  {
    var shown := DisplayedResults(ServerPage(all, page));
    forall i | 0 <= i < |shown|
      ensures shown[i] == all[Offset(page) + i] && Offset(page) + i != g
    {
      OffsetRemainder(page, i);
    }
  }

  /** A position `i < 21` into server page `page` leaves remainder `i` modulo the page size. */
  lemma OffsetRemainder(page: nat, i: nat)
    requires 1 <= page && i < RequestLimit
    ensures (Offset(page) + i) % RequestLimit == i
  {
    var k := page - 1;
    assert Offset(page) + i == k * RequestLimit + i;
  }

  class SearchPage<T> {
    var query: string
    var results: seq<T>
    var pagination: Option<Api.Pagination>
    var currentPage: int
    var loading: bool
    var error: Option<string>

    ghost predicate Valid()
      reads this
    {
      1 <= currentPage
    }

    /** The page as first rendered for the `q` parameter `query`. */
    constructor (query: string)
      ensures Valid()
      ensures this.query == query && results == [] && pagination == None && currentPage == 1
      ensures !loading && error == None
    {
      this.query := query;
      results, pagination, currentPage := [], None, 1;
      loading, error := false, None;
    }

    /** Navigating to another `q`; the current page is kept. */
    method SetQuery(q: string)
      modifies this`query
      ensures query == q
    {
      query := q;
    }

    /**
     * The start of the fetch effect, which runs whenever `query` or
     * `currentPage` changes: a blank query clears the results and the
     * pagination and sends nothing; otherwise one request is sent.
     */
    method BeginFetch() returns (req: Option<SearchRequest>)
      modifies this`results, this`pagination, this`loading, this`error
      ensures IsBlank(query) ==>
        && req == None && results == [] && pagination == None
        && loading == old(loading) && error == old(error)
      ensures !IsBlank(query) ==>
        && req == Some(SearchRequest(query, currentPage, RequestLimit))
        && results == old(results) && pagination == old(pagination)
        && loading && error == None
    {
      if Js.Trim(query) == [] {
        results := [];
        pagination := None;
        return None;
      }
      loading := true;
      error := None;
      req := Some(SearchRequest(query, currentPage, RequestLimit));
    }

    /** The rest of the fetch effect, once the request settles; nothing is applied after cleanup. */
    method FinishFetch(res: Result<Option<Api.PageBody<T>>, Api.Failure>, ignore: bool)
      modifies this`results, this`pagination, this`loading, this`error
      ensures ignore ==>
        && results == old(results) && pagination == old(pagination)
        && loading == old(loading) && error == old(error)
      ensures !ignore ==> !loading
      ensures !ignore && res.Ok? ==>
        && results == Api.DataOrEmpty(res.value)
        && pagination == (if res.value.Some? then res.value.value.pagination else None)
        && error == old(error)
      ensures !ignore && res.Err? ==>
        && results == old(results) && pagination == old(pagination)
        && error == Some(Js.StringOr(res.error, "Failed to search movies"))
    {
      if !ignore {
        match res
        case Ok(body) =>
          results := Api.DataOrEmpty(body);
          pagination := if body.Some? then body.value.pagination else None;
        case Err(message) =>
          error := Some(Js.StringOr(message, "Failed to search movies"));
      }
      if !ignore {
        loading := false;
      }
    }

    /** `handleNext`: one page further; the handler itself does not consult `hasMore`. */
    method HandleNext()
      requires Valid()
      modifies this`currentPage
      ensures Valid() && currentPage == old(currentPage) + 1
    {
      currentPage := currentPage + 1;
    }

    /** `handlePrev`: one page back, only from a page above 1. */
    method HandlePrev()
      requires Valid()
      modifies this`currentPage
      ensures Valid()
      ensures old(currentPage) > 1 ==> currentPage == old(currentPage) - 1
      ensures old(currentPage) <= 1 ==> currentPage == old(currentPage)
    {
      if currentPage > 1 {
        currentPage := currentPage - 1;
      }
    }
  }
}
