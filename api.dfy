/**
 * The pure parts of the REST client (movies-web/src/service/api.js): the
 * page-size cap of the most-popular endpoint, the check of the HTTP status,
 * and the merge of the first two pages. The network itself is not modelled:
 * a request's outcome is a parameter.
 */
module Api {
  import opened Wrappers
  import Js

  /** What a rejected promise carries: the `message` of the thrown value, when it has one. */
  type Failure = Option<string>

  /** The server never serves more than twelve items per page. */
  const PageCap: Js.Number := Js.Finite(12.0)

  datatype Pagination = Pagination(currentPage: Option<int>, pageSize: Option<int>,
                                   totalPages: Option<int>, totalItems: Option<int>)

  /** The pagination reported for the merged first two pages when page 1 reports none. */
  const DefaultPagination := Pagination(Some(1), Some(12), None, None)

  /** The parsed JSON body of a list endpoint; every field may be missing. */
  datatype PageBody<T> = PageBody(title: Option<string>, data: Option<seq<T>>, pagination: Option<Pagination>)

  /** What `prefetchMostPopularFirstTwoPages` resolves to. */
  datatype Merged<T> = Merged(title: string, data: seq<T>, pagination: Pagination)

  /** An HTTP response as `fetch` delivers it: `response.ok`, `response.status` and the parsed body. */
  datatype Response<B> = Response(ok: bool, status: nat, body: B)

  /** The query of a most-popular request: `?page=...&limit=...`. */
  datatype Request = Request(page: int, limit: Js.Number)

  /**
   * `Math.min(Number(limit) || 12, 12)`, where a missing `limit` takes its
   * default 12. The callers of the application always pass numbers.
   */
  function CapLimit(limit: Option<Js.Number>): (r: Js.Number)
    ensures Js.AtMost(r, PageCap) && Js.NumberTruthy(r)
    ensures limit.None? || !Js.NumberTruthy(limit.value) ==> r == PageCap
    ensures limit.Some? && Js.NumberTruthy(limit.value) && Js.AtMost(limit.value, PageCap) ==> r == limit.value
    ensures limit.Some? && Js.AtMost(PageCap, limit.value) ==> r == PageCap
  {
    var n := if limit.Some? then limit.value else Js.Finite(12.0);
    var v := if Js.NumberTruthy(n) then n else Js.Finite(12.0);
    Js.Min(v, PageCap)
  }

  /** The request `getMostPopularMovies(page, limit)` sends: the page as given, the limit capped. */
  function MostPopularRequest(page: int, limit: Option<Js.Number>): (q: Request)
    ensures q.page == page
    ensures Js.AtMost(q.limit, PageCap) && Js.NumberTruthy(q.limit)
    ensures limit.None? ==> q.limit == PageCap
  {
    Request(page, CapLimit(limit))
  }

  /** The two requests `prefetchMostPopularFirstTwoPages` sends. */
  function FirstTwoPagesRequests(): (qs: seq<Request>)
    ensures qs == [Request(1, PageCap), Request(2, PageCap)]
  {
    [MostPopularRequest(1, Some(Js.Finite(12.0))), MostPopularRequest(2, Some(Js.Finite(12.0)))]
  }

  function DigitChar(d: nat): char
    requires d < 10
  {
    "0123456789"[d]
  }

  function DigitValue(c: char): nat {
    if '0' <= c <= '9' then (c as int - '0' as int) as nat else 0
  }

  /** The decimal text of a natural number, as a template literal prints it. */
  function Decimal(n: nat): (s: string)
    ensures s != []
  {
    if n < 10 then [DigitChar(n)] else Decimal(n / 10) + [DigitChar(n % 10)]
  }

  /** Reads back a string of decimal digits. */
  function ParseDecimal(s: string): nat {
    if s == [] then 0 else ParseDecimal(s[..|s| - 1]) * 10 + DigitValue(s[|s| - 1])
  }

  lemma {:induction false} DecimalRoundTrip(n: nat)
    ensures ParseDecimal(Decimal(n)) == n
  {
    if n >= 10 {
      var s := Decimal(n);
      assert s[..|s| - 1] == Decimal(n / 10);
      DecimalRoundTrip(n / 10);
    }
  }

  const ApiErrorPrefix: string := "API error: "

  /**
   * The message of the error thrown for a response that is not OK: the
   * fixed prefix followed by the status, which reads back from the text.
   */
  function ApiErrorMessage(status: nat): (m: string)
    ensures |ApiErrorPrefix| < |m| && m[..|ApiErrorPrefix|] == ApiErrorPrefix
    ensures ParseDecimal(m[|ApiErrorPrefix|..]) == status
  {
    var m := ApiErrorPrefix + Decimal(status);
    assert m[|ApiErrorPrefix|..] == Decimal(status);
    DecimalRoundTrip(status);
    m
  }

  /** Two different statuses never produce the same error message. */
  lemma ApiErrorMessageInjective(a: nat, b: nat)
    ensures ApiErrorMessage(a) == ApiErrorMessage(b) ==> a == b
  {
  }

  /**
   * The outcome of `getMostPopularMovies` given the outcome of its `fetch`:
   * a transport failure rejects as it is, a response that is not OK rejects
   * with "API error: <status>", and an OK response resolves to its body.
   */
  function GetMostPopular<B>(transport: Result<Response<B>, Failure>): (r: Result<B, Failure>)
    ensures r.Ok? <==> transport.Ok? && transport.value.ok
    ensures r.Ok? ==> r.value == transport.value.body
    ensures transport.Err? ==> r == Err(transport.error)
    ensures transport.Ok? && !transport.value.ok ==> r == Err(Some(ApiErrorMessage(transport.value.status)))
  {
    match transport
    case Err(e) => Err(e)
    case Ok(response) =>
      if !response.ok then Err(Some(ApiErrorMessage(response.status))) else Ok(response.body)
  }

  /** `p?.data || []`: the items of a page, or none when the body or its `data` is missing. */
  function DataOrEmpty<T>(p: Option<PageBody<T>>): (d: seq<T>)
    ensures p.Some? && p.value.data.Some? ==> d == p.value.data.value
    ensures p.None? || p.value.data.None? ==> d == []
  {
    if p.Some? && p.value.data.Some? then p.value.data.value else []
  }

  /**
   * The `merged` object built from the bodies of pages 1 and 2: all items of
   * page 1 come first, in order, then all items of page 2, a missing `data`
   * counting as no items; the title and pagination are page 1's, falling back
   * to "Most Popular" and page 1 of size 12.
   */
  function MergeFirstTwoPages<T>(p1: Option<PageBody<T>>, p2: Option<PageBody<T>>): (m: Merged<T>)
    ensures |m.data| == |DataOrEmpty(p1)| + |DataOrEmpty(p2)|
    ensures forall i :: 0 <= i < |DataOrEmpty(p1)| ==> m.data[i] == DataOrEmpty(p1)[i]
    ensures forall j :: 0 <= j < |DataOrEmpty(p2)| ==> m.data[|DataOrEmpty(p1)| + j] == DataOrEmpty(p2)[j]
    ensures p1.None? || p1.value.title.None? || p1.value.title.value == "" ==> m.title == "Most Popular"
    ensures p1.Some? && p1.value.title.Some? && p1.value.title.value != "" ==> m.title == p1.value.title.value
    ensures p1.None? || p1.value.pagination.None? ==> m.pagination == Pagination(Some(1), Some(12), None, None)
    ensures p1.Some? && p1.value.pagination.Some? ==> m.pagination == p1.value.pagination.value
  {
    Merged(Js.StringOr(if p1.Some? then p1.value.title else None, "Most Popular"),
           DataOrEmpty(p1) + DataOrEmpty(p2),
           if p1.Some? && p1.value.pagination.Some? then p1.value.pagination.value else DefaultPagination)
  }

  /**
   * `prefetchMostPopularFirstTwoPages`: `Promise.all` over the two page
   * requests. It rejects as soon as one of them rejects, with that one's
   * error; `secondRejectsFirst` says which rejection comes first when both do.
   */
  function PrefetchFirstTwoPages<T>(r1: Result<Option<PageBody<T>>, Failure>,
                                    r2: Result<Option<PageBody<T>>, Failure>,
                                    secondRejectsFirst: bool): (r: Result<Merged<T>, Failure>)
    ensures r.Ok? <==> r1.Ok? && r2.Ok?
    ensures r.Ok? ==> r.value == MergeFirstTwoPages(r1.value, r2.value)
    ensures r.Err? ==> (r1.Err? && r.error == r1.error) || (r2.Err? && r.error == r2.error)
    ensures r1.Err? && r2.Ok? ==> r.error == r1.error
    ensures r1.Ok? && r2.Err? ==> r.error == r2.error
  {
    if r1.Err? && (r2.Ok? || !secondRejectsFirst) then Err(r1.error)
    else if r2.Err? then Err(r2.error)
    else Ok(MergeFirstTwoPages(r1.value, r2.value))
  }

  /** The merged result does not depend on the order in which the two requests settle. */
  lemma PrefetchOrderIndependent<T>(r1: Result<Option<PageBody<T>>, Failure>,
                                    r2: Result<Option<PageBody<T>>, Failure>)
    requires r1.Ok? || r2.Ok? || r1.error == r2.error
    ensures PrefetchFirstTwoPages(r1, r2, true) == PrefetchFirstTwoPages(r1, r2, false)
  {
  }
}
