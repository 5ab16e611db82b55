/**
 * The paged window cache behind the "Most Popular" and "Top Rating"
 * carousels (movies-web/src/components/movie/MostPopularCarousel.jsx and
 * TopRatingCarousel.jsx, which hold the same code). The cache keeps an
 * append-only list of items, the set of pages already loaded, the cursor of
 * a three-item window and a flag that lets only one "load next page" request
 * be in flight.
 *
 * `goNext` is asynchronous: it runs synchronously up to the `await` of the
 * page request, and the rest runs when the request settles. The model splits
 * it there: `BeginNext` is the part before the `await` and returns what the
 * suspended call remembers (a `Step`), `CompleteNext` is the continuation.
 * The continuation clamps the cursor with the length of `items` captured
 * when the click was handled, not with the length after the new page
 * arrived, exactly as the component's closure does.
 */
module PageWindow {
  import opened Wrappers
  import Js
  import Api

  /** Items per server page (the API's cap). */
  const PageSize: nat := 12
  /** Items per window. */
  const ViewSize: nat := 3

  /** `Math.max(len - VIEW_SIZE, 0)`: the largest cursor the clamp allows. */
  function MaxCursor(len: nat): (m: nat)
    ensures len < ViewSize ==> m == 0
    ensures ViewSize <= len ==> m + ViewSize == len
  {
    if len >= ViewSize then len - ViewSize else 0
  }

  /** `Math.min(next, Math.max(len - VIEW_SIZE, 0))`. */
  function Clamp(next: int, len: nat): (c: int)
    ensures c <= next && c <= MaxCursor(len)
    ensures c == next || c == MaxCursor(len)
    ensures 0 <= next ==> 0 <= c
  {
    if next <= MaxCursor(len) then next else MaxCursor(len)
  }

  /**
   * `Math.floor(total / PAGE_SIZE) + 1`: the page whose range of items
   * contains position `total`, i.e. the page after the last complete one.
   */
  function NextPageIndex(total: nat): (p: nat)
    ensures 1 <= p
    ensures (p - 1) * PageSize <= total < p * PageSize
  {
    total / PageSize + 1
  }

  /** `items.slice(cursor, cursor + VIEW_SIZE)`: the visible window. */
  function CurrentSlice<T>(items: seq<T>, cursor: int): (w: seq<T>)
    ensures |w| <= ViewSize
    ensures 0 <= cursor ==> forall i :: 0 <= i < |w| ==> cursor + i < |items| && w[i] == items[cursor + i]
    ensures 0 <= cursor <= MaxCursor(|items|) ==> |w| == if |items| < ViewSize then |items| else ViewSize
  {
    Js.Slice(items, cursor, cursor + ViewSize)
  }

  /** `Math.max(cursor - VIEW_SIZE, 0)`: where `goPrev` puts the cursor. */
  function PrevCursor(cursor: nat): (c: nat)
    ensures c <= cursor && cursor <= c + ViewSize
    ensures c == 0 || c + ViewSize == cursor
  {
    if cursor >= ViewSize then cursor - ViewSize else 0
  }

  /**
   * What a click on "next" does up to its `await`: nothing on an empty list;
   * otherwise either it requests page `page` and suspends, remembering the
   * tentative cursor `next` and the length `capturedLen` it saw, or it moves
   * the cursor to `cursor` at once.
   */
  datatype Step = Ignored | Moved(cursor: int) | Fetching(page: nat, next: nat, capturedLen: nat)

  /** The decision `goNext` and `ensureMoreIfNeeded` make from the state a click sees. */
  function NextStep(len: nat, cursor: nat, loaded: set<int>, fetching: bool): (s: Step)
    ensures s.Ignored? <==> len == 0
    ensures s.Fetching? ==>
      && !fetching && s.page == NextPageIndex(len) && s.page !in loaded
      && s.next == cursor + ViewSize && s.capturedLen == len
    ensures s.Moved? ==> 0 <= s.cursor <= MaxCursor(len) && s.cursor <= cursor + ViewSize
    ensures s.Moved? ==> s.cursor == Clamp(cursor + ViewSize, len)
  {
    if len == 0 then Ignored
    else
      var next := cursor + ViewSize;
      if next > len - ViewSize && next >= len - ViewSize && !fetching && NextPageIndex(len) !in loaded
      then Fetching(NextPageIndex(len), next, len)
      else Moved(Clamp(next, len))
  }

  /**
   * A click does nothing on an empty list; it requests a page exactly when
   * the tentative cursor passes the last full window, no request is in
   * flight and page `floor(len / 12) + 1` is not loaded yet; otherwise it
   * moves the cursor forward by at most one window and never past
   * `max(len - 3, 0)`.
   */
  lemma NextStepSpec(len: nat, cursor: nat, loaded: set<int>, fetching: bool)
    requires cursor <= MaxCursor(len)
    ensures var s := NextStep(len, cursor, loaded, fetching);
      && (s.Ignored? <==> len == 0)
      && (s.Fetching? <==> 0 < len && cursor + ViewSize > len - ViewSize && !fetching && NextPageIndex(len) !in loaded)
      && (s.Fetching? ==> s.page == NextPageIndex(len) && s.page !in loaded && s.next == cursor + ViewSize && s.capturedLen == len)
      && (s.Moved? ==> cursor <= s.cursor <= MaxCursor(len) && s.cursor <= cursor + ViewSize)
      && (s.Moved? ==> s.cursor == Clamp(cursor + ViewSize, len))
  {
  }

  /** While a request is in flight no click requests another page. */
  lemma NoSecondRequestInFlight(len: nat, cursor: nat, loaded: set<int>)
    ensures !NextStep(len, cursor, loaded, true).Fetching?
  {
  }

  /**
   * The click that requests a page leaves the cursor at the old tail
   * `max(len - 3, 0)` once the page arrives: the clamp uses the captured
   * length, so the new items become visible only on the following click.
   */
  lemma FetchingClickStaysAtTail(len: nat, cursor: nat, loaded: set<int>)
    requires cursor <= MaxCursor(len)
    requires NextStep(len, cursor, loaded, false).Fetching?
    ensures var s := NextStep(len, cursor, loaded, false);
      Clamp(s.next, s.capturedLen) == MaxCursor(len) && cursor <= Clamp(s.next, s.capturedLen)
  {
  }

  /** A step back followed by a step forward returns to the same window, without a request. */
  lemma PrevThenNext(len: nat, cursor: nat, loaded: set<int>, fetching: bool)
    requires ViewSize <= cursor <= MaxCursor(len)
    ensures NextStep(len, PrevCursor(cursor), loaded, fetching) == Moved(cursor)
  {
  }

  /** After a full page the next request asks for the following page. */
  lemma FullPageAdvancesPageIndex(total: nat)
    ensures NextPageIndex(total + PageSize) == NextPageIndex(total) + 1
  {
  }

  /**
   * A short page stops all further loading: once page `p` is loaded and
   * returned only `k < 12` items, the page index computed from the length is
   * `p` again, which is already loaded, so no click ever requests a page.
   */
  lemma {:induction false} ShortPageStopsLoading(p: nat, k: nat, cursor: nat, loaded: set<int>, fetching: bool)
    requires 1 <= p && k < PageSize && p in loaded
    ensures NextPageIndex((p - 1) * PageSize + k) == p
    ensures !NextStep((p - 1) * PageSize + k, cursor, loaded, fetching).Fetching?
  {
    var total := (p - 1) * PageSize + k;
    var q := NextPageIndex(total);
    assert (q - 1) * PageSize <= total < q * PageSize;
    assert q * PageSize == (q - 1) * PageSize + PageSize;
    assert p * PageSize == (p - 1) * PageSize + PageSize;
  }

  class PageWindowCache<T> {
    /** The message shown when a failed bootstrap carries none. */
    const fallbackError: string

    var items: seq<T>
    var pageLoaded: set<int>
    var cursor: int
    var loading: bool
    var error: Option<string>
    /** `isFetchingMoreRef.current`: shared by every pending `goNext`. */
    var isFetchingMore: bool

    /** The cursor always selects a window inside the list. */
    ghost predicate Valid()
      reads this
    {
      0 <= cursor <= MaxCursor(|items|)
    }

    constructor MostPopular()
      ensures Valid()
      ensures items == [] && pageLoaded == {} && cursor == 0
      ensures !loading && error == None && !isFetchingMore
      ensures fallbackError == "Failed to load most popular movies"
    {
      fallbackError := "Failed to load most popular movies";
      items, pageLoaded, cursor := [], {}, 0;
      loading, error, isFetchingMore := false, None, false;
    }

    constructor TopRating()
      ensures Valid()
      ensures items == [] && pageLoaded == {} && cursor == 0
      ensures !loading && error == None && !isFetchingMore
      ensures fallbackError == "Failed to load top rating movies"
    {
      fallbackError := "Failed to load top rating movies";
      items, pageLoaded, cursor := [], {}, 0;
      loading, error, isFetchingMore := false, None, false;
    }

    /** The synchronous start of `bootstrap`, before it awaits the first two pages. */
    method StartBootstrap()
      modifies this`loading, this`error
      ensures loading && error == None
    {
      loading := true;
      error := None;
    }

    /**
     * The rest of `bootstrap`, once the two-page prefetch settles. `ignore`
     * is the flag the effect's cleanup sets on unmount: when it is set
     * nothing is applied.
     */
    method FinishBootstrap(res: Result<Api.Merged<T>, Api.Failure>, ignore: bool)
      requires Valid()
      modifies this`items, this`pageLoaded, this`cursor, this`loading, this`error
      ensures Valid()
      ensures ignore ==>
        && items == old(items) && pageLoaded == old(pageLoaded) && cursor == old(cursor)
        && loading == old(loading) && error == old(error)
      ensures !ignore ==> !loading
      ensures !ignore && res.Ok? ==>
        items == res.value.data && pageLoaded == {1, 2} && cursor == 0 && error == old(error)
      ensures !ignore && res.Err? ==>
        items == old(items) && pageLoaded == old(pageLoaded) && cursor == old(cursor)
        && error == Some(Js.StringOr(res.error, fallbackError))
    {
      if !ignore {
        match res
        case Ok(merged) =>
          items := merged.data;
          pageLoaded := {1, 2};
          cursor := 0;
        case Err(message) =>
          error := Some(Js.StringOr(message, fallbackError));
      }
      if !ignore {
        loading := false;
      }
    }

    /**
     * A click on "next", up to the `await` of the page request. When it
     * requests a page it takes the in-flight flag and leaves the cursor
     * alone; otherwise it sets the cursor at once.
     */
    method BeginNext() returns (step: Step)
      requires Valid()
      modifies this`cursor, this`isFetchingMore
      ensures Valid()
      ensures step == NextStep(|items|, old(cursor), pageLoaded, old(isFetchingMore))
      ensures step.Moved? ==> cursor == step.cursor
      ensures !step.Moved? ==> cursor == old(cursor)
      ensures isFetchingMore == (old(isFetchingMore) || step.Fetching?)
    {
      if |items| == 0 {
        return Ignored;
      }
      var next := cursor + ViewSize;
      if next > |items| - ViewSize {
        // ensureMoreIfNeeded(next), up to its await
        var total := |items|;
        var atOrBeyondEnd := next >= total - ViewSize;
        if atOrBeyondEnd && !isFetchingMore {
          var nextPageIndex := total / PageSize + 1;
          if nextPageIndex !in pageLoaded {
            isFetchingMore := true;
            return Fetching(nextPageIndex, next, total);
          }
        }
      }
      var bound := if |items| - ViewSize > 0 then |items| - ViewSize else 0;
      next := if next < bound then next else bound;
      cursor := next;
      step := Moved(next);
    }

    /**
     * The continuation of a click that requested a page, once the request
     * settles. On success the page's items are appended to the live list,
     * the page is marked loaded and the cursor is clamped with the length
     * the click captured. On failure the `finally` releases the flag and the
     * click's promise rejects before the cursor is set. The flag is released
     * on both paths.
     */
    method CompleteNext(step: Step, res: Result<Option<Api.PageBody<T>>, Api.Failure>)
      returns (rejection: Option<Api.Failure>)
      requires Valid() && step.Fetching? && step.capturedLen <= |items|
      modifies this`items, this`pageLoaded, this`cursor, this`isFetchingMore
      ensures Valid() && !isFetchingMore
      ensures res.Ok? ==>
        && items == old(items) + Api.DataOrEmpty(res.value)
        && pageLoaded == old(pageLoaded) + {step.page}
        && cursor == Clamp(step.next, step.capturedLen)
        && rejection == None
      ensures res.Err? ==>
        && items == old(items) && pageLoaded == old(pageLoaded) && cursor == old(cursor)
        && rejection == Some(res.error)
    {
      match res
      case Ok(body) =>
        items := items + Api.DataOrEmpty(body);
        pageLoaded := pageLoaded + {step.page};
        isFetchingMore := false;
        var next := step.next;
        var bound := if step.capturedLen - ViewSize > 0 then step.capturedLen - ViewSize else 0;
        next := if next < bound then next else bound;
        cursor := next;
        rejection := None;
      case Err(e) =>
        isFetchingMore := false;
        rejection := Some(e);
    }

    /**
     * One click on "next" whose request, if it makes one, settles with `res`
     * before anything else happens.
     */
    method GoNext(res: Result<Option<Api.PageBody<T>>, Api.Failure>) returns (rejection: Option<Api.Failure>)
      requires Valid()
      modifies this`items, this`pageLoaded, this`cursor, this`isFetchingMore
      ensures Valid() && isFetchingMore == old(isFetchingMore)
      ensures var s := NextStep(old(|items|), old(cursor), old(pageLoaded), old(isFetchingMore));
        && (!s.Fetching? ==> items == old(items) && pageLoaded == old(pageLoaded) && rejection == None)
        && (s.Ignored? ==> cursor == old(cursor))
        && (s.Moved? ==> cursor == s.cursor)
        && (s.Fetching? && res.Ok? ==>
              items == old(items) + Api.DataOrEmpty(res.value) && pageLoaded == old(pageLoaded) + {s.page}
              && cursor == MaxCursor(old(|items|)) && rejection == None)
        && (s.Fetching? && res.Err? ==>
              items == old(items) && pageLoaded == old(pageLoaded) && cursor == old(cursor)
              && rejection == Some(res.error))
    {
      ghost var len, at, loaded := |items|, cursor, pageLoaded;
      var step := BeginNext();
      rejection := None;
      if step.Fetching? {
        FetchingClickStaysAtTail(len, at, loaded);
        rejection := CompleteNext(step, res);
      }
    }

    /** A click on "previous": one window back, never below 0, never a request. */
    method GoPrev()
      requires Valid()
      modifies this`cursor
      ensures Valid()
      ensures items == [] ==> cursor == old(cursor)
      ensures items != [] ==> cursor == PrevCursor(old(cursor))
    {
      if |items| == 0 {
        return;
      }
      var prev := if cursor - ViewSize > 0 then cursor - ViewSize else 0;
      cursor := prev;
    }
  }

  /**
   * Bootstrap with two full pages, then clicks on "next" until a third page
   * is requested; a second click while it is in flight does not request it
   * again, and the window reaches the new items one click after they arrive.
   */
  method ScenarioThirdPage() {
    var cache := new PageWindowCache<int>.MostPopular();
    cache.StartBootstrap();
    var page1 := Api.PageBody(None, Some(seq(12, i => i)), None);
    var page2 := Api.PageBody(None, Some(seq(12, i => 12 + i)), None);
    cache.FinishBootstrap(Api.PrefetchFirstTwoPages(Ok(Some(page1)), Ok(Some(page2)), false), false);
    assert |cache.items| == 24 && cache.cursor == 0 && cache.pageLoaded == {1, 2};
    assert CurrentSlice(cache.items, cache.cursor) == [0, 1, 2];

    var step := cache.BeginNext();
    assert step == Moved(3);
    var k := 1;
    while k < 7
      invariant 1 <= k <= 7 && cache.Valid()
      invariant |cache.items| == 24 && cache.pageLoaded == {1, 2} && !cache.isFetchingMore
      invariant cache.cursor == 3 * k
      modifies cache
    {
      step := cache.BeginNext();
      k := k + 1;
    }
    assert cache.cursor == 21;

    step := cache.BeginNext();
    assert step == Fetching(3, 24, 24) && cache.isFetchingMore;
    var again := cache.BeginNext();
    assert again == Moved(21);

    var page3 := Api.PageBody(None, Some(seq(12, i => 24 + i)), None);
    var rejection := cache.CompleteNext(step, Ok(Some(page3)));
    assert |cache.items| == 36 && cache.cursor == 21 && 3 in cache.pageLoaded && !cache.isFetchingMore;

    step := cache.BeginNext();
    assert step == Moved(24);
    assert CurrentSlice(cache.items, cache.cursor) == [24, 25, 26];
  }

  /** A bootstrap whose first page fails leaves the cache empty and reports the error. */
  method ScenarioBootstrapFailure() {
    var cache := new PageWindowCache<int>.TopRating();
    cache.StartBootstrap();
    var page2 := Api.PageBody(None, Some(seq(12, i => 12 + i)), None);
    cache.FinishBootstrap(Api.PrefetchFirstTwoPages(Err(Some("API error: 500")), Ok(Some(page2)), false), false);
    assert cache.items == [] && cache.cursor == 0 && !cache.loading;
    assert cache.error == Some("API error: 500");
    var step := cache.BeginNext();
    assert step == Ignored && cache.cursor == 0;
  }
}
