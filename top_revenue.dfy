/**
 * The single-item "Top Revenue" carousel
 * (movies-web/src/components/movie/TopRevenueCarousel.jsx): it loads the
 * first five most-popular movies and steps through them with wrap-around.
 */
module TopRevenue {
  import opened Wrappers
  import Js
  import Api

  /** `(i + 1) % movies.length`. */
  function NextIndex(i: nat, n: nat): (r: nat)
    requires 0 < n
    ensures r < n
    ensures i + 1 < n ==> r == i + 1
    ensures i + 1 == n ==> r == 0
  {
    (i + 1) % n
  }

  /** `(i - 1 + movies.length) % movies.length`; both operands are non-negative, so JavaScript's `%` agrees. */
  function PrevIndex(i: nat, n: nat): (r: nat)
    requires 0 < n
    ensures r < n
    ensures 0 < i < n ==> r == i - 1
    ensures i == 0 ==> r == n - 1
  {
    (i - 1 + n) % n
  }

  /** A step back undoes a step forward. */
  lemma PrevAfterNext(i: nat, n: nat)
    requires i < n
    ensures PrevIndex(NextIndex(i, n), n) == i
  {
  }

  /** A step forward undoes a step back. */
  lemma NextAfterPrev(i: nat, n: nat)
    requires i < n
    ensures NextIndex(PrevIndex(i, n), n) == i
  {
  }

  /** The index after `k` clicks on "next". */
  function Advance(i: nat, n: nat, k: nat): (r: nat)
    requires i < n
    ensures r < n
    decreases k
  {
    if k == 0 then i else Advance(NextIndex(i, n), n, k - 1)
  }

  lemma {:induction false} AdvanceAdd(i: nat, n: nat, a: nat, b: nat)
    requires i < n
    ensures Advance(i, n, a + b) == Advance(Advance(i, n, a), n, b)
    decreases a
  {
    if a > 0 {
      AdvanceAdd(NextIndex(i, n), n, a - 1, b);
    }
  }

  /** Without reaching the end, `k` clicks move `k` places. */
  lemma {:induction false} AdvanceWithinRange(i: nat, n: nat, k: nat)
    requires i + k < n
    ensures Advance(i, n, k) == i + k
    decreases k
  {
    if k > 0 {
      AdvanceWithinRange(i + 1, n, k - 1);
    }
  }

  /** `movies.length` clicks on "next" come back to the starting movie. */
  lemma FullTurn(i: nat, n: nat)
    requires i < n
    ensures Advance(i, n, n) == i
  {
    AdvanceWithinRange(i, n, n - 1 - i);
    AdvanceAdd(i, n, n - 1 - i, 1 + i);
    AdvanceAdd(n - 1, n, 1, i);
    AdvanceWithinRange(0, n, i);
  }

  /** The counter under the carousel: `Movie {shown} / {total}`. */
  function Counter(index: nat, len: nat): (r: (nat, nat))
    ensures len == 0 ==> r == (0, 0)
    ensures 0 < len && index < len ==> 1 <= r.0 <= r.1 == len && r.0 == index + 1
  {
    (if len > 0 then index + 1 else 0, len)
  }

  /** The request of the load effect: `getMostPopularMovies(1, 5)`. */
  function LoadRequest(): (q: Api.Request)
    ensures q == Api.Request(1, Js.Finite(5.0))
  {
    Api.MostPopularRequest(1, Some(Js.Finite(5.0)))
  }

  class RevenueCarousel<T> {
    var movies: seq<T>
    var index: int
    var loading: bool
    var error: Option<string>

    /** The index always designates a movie when there is one, and is 0 otherwise. */
    ghost predicate Valid()
      reads this
    {
      0 <= index && (movies == [] ==> index == 0) && (movies != [] ==> index < |movies|)
    }

    constructor ()
      ensures Valid() && movies == [] && index == 0 && !loading && error == None
    {
      movies, index, loading, error := [], 0, false, None;
    }

    method StartLoad()
      modifies this`loading, this`error
      ensures loading && error == None
    {
      loading := true;
      error := None;
    }

    /** The rest of the load effect, once the request settles; nothing is applied after unmount. */
    method FinishLoad(res: Result<Option<Api.PageBody<T>>, Api.Failure>, ignore: bool)
      requires Valid()
      modifies this`movies, this`index, this`loading, this`error
      ensures Valid()
      ensures ignore ==> movies == old(movies) && index == old(index) && loading == old(loading) && error == old(error)
      ensures !ignore ==> !loading
      ensures !ignore && res.Ok? ==> movies == Api.DataOrEmpty(res.value) && index == 0 && error == old(error)
      ensures !ignore && res.Err? ==>
        && movies == old(movies) && index == old(index)
        && error == Some(Js.StringOr(res.error, "Failed to load movies"))
    {
      if !ignore {
        match res
        case Ok(body) =>
          movies := Api.DataOrEmpty(body);
          index := 0;
        case Err(message) =>
          error := Some(Js.StringOr(message, "Failed to load movies"));
      }
      if !ignore {
        loading := false;
      }
    }

    method GoNext()
      requires Valid()
      modifies this`index
      ensures Valid()
      ensures movies == [] ==> index == old(index)
      ensures movies != [] ==> index == NextIndex(old(index), |movies|)
    {
      if |movies| == 0 {
        return;
      }
      index := (index + 1) % |movies|;
    }

    method GoPrev()
      requires Valid()
      modifies this`index
      ensures Valid()
      ensures movies == [] ==> index == old(index)
      ensures movies != [] ==> index == PrevIndex(old(index), |movies|)
    {
      if |movies| == 0 {
        return;
      }
      index := (index - 1 + |movies|) % |movies|;
    }
  }
}
