/**
 * The two derived lists of the movie detail page
 * (movies-web/src/pages/MovieDetail.jsx): the rating entries and the
 * box-office entries, each a fixed, ordered list of labelled values
 * filtered down to the values that are truthy.
 */
module MovieDetail {
  import opened Wrappers
  import Js

  /** `movie.ratings`. */
  datatype Ratings = Ratings(imDb: Js.Value, metacritic: Js.Value, theMovieDb: Js.Value,
                             filmAffinity: Js.Value, rottenTomatoes: Js.Value)

  /** `movie.box_office`. */
  datatype BoxOffice = BoxOffice(budget: Js.Value, grossUSA: Js.Value, openingWeekendUSA: Js.Value,
                                 cumulativeWorldwideGross: Js.Value)

  /** The fields of the movie these lists read; a missing object is `None`. */
  datatype Movie = Movie(ratings: Option<Ratings>, boxOffice: Option<BoxOffice>)

  /** A `[label, value]` pair. */
  datatype Entry = Entry(name: string, value: Js.Value)

  function RatingEntries(r: Ratings): (es: seq<Entry>)
    ensures |es| == 5
  {
    [Entry("IMDb", r.imDb), Entry("Metacritic", r.metacritic), Entry("TheMovieDB", r.theMovieDb),
     Entry("FilmAffinity", r.filmAffinity), Entry("Rotten Tomatoes", r.rottenTomatoes)]
  }

  function BoxOfficeEntryList(b: BoxOffice): (es: seq<Entry>)
    ensures |es| == 4
  {
    [Entry("Budget", b.budget), Entry("Gross USA", b.grossUSA),
     Entry("Opening Weekend USA", b.openingWeekendUSA), Entry("Worldwide", b.cumulativeWorldwideGross)]
  }

  /** `([, v]) => v`, the test of both filters. */
  function HasValue(): Entry -> bool {
    (e: Entry) => Js.Truthy(e.value)
  }

  /** `entries.filter(([, v]) => v)`, with its order-preservation proved once. */
  function KeepTruthy(entries: seq<Entry>): (r: seq<Entry>)
    ensures Js.IsSubsequence(r, entries) && |r| <= |entries|
    ensures forall i :: 0 <= i < |r| ==> r[i] in entries && Js.Truthy(r[i].value)
    ensures forall i :: 0 <= i < |entries| && Js.Truthy(entries[i].value) ==> entries[i] in r
    ensures forall e :: multiset(r)[e] == if Js.Truthy(e.value) then multiset(entries)[e] else 0
  {
    Js.FilterIsSubsequence(entries, HasValue());
    Js.FilterMultiset(entries, HasValue());
    Js.Filter(entries, HasValue())
  }

  /**
   * `ratings`: empty when the movie or its ratings are missing; otherwise
   * the labelled ratings in the fixed order IMDb, Metacritic, TheMovieDB,
   * FilmAffinity, Rotten Tomatoes, keeping exactly the truthy ones.
   */
  function RatingsList(movie: Option<Movie>): (r: seq<Entry>)
    ensures movie.None? || movie.value.ratings.None? ==> r == []
    ensures movie.Some? && movie.value.ratings.Some? ==>
      var all := RatingEntries(movie.value.ratings.value);
      && Js.IsSubsequence(r, all) && |r| <= 5
      && (forall i :: 0 <= i < |r| ==> r[i] in all && Js.Truthy(r[i].value))
      && (forall i :: 0 <= i < |all| && Js.Truthy(all[i].value) ==> all[i] in r)
  {
    if movie.None? || movie.value.ratings.None? then [] else KeepTruthy(RatingEntries(movie.value.ratings.value))
  }

  /**
   * `boxOfficeEntries`: empty when the movie or its box office are missing;
   * otherwise Budget, Gross USA, Opening Weekend USA, Worldwide in that
   * order, keeping exactly the truthy ones.
   */
  function BoxOfficeEntries(movie: Option<Movie>): (r: seq<Entry>)
    ensures movie.None? || movie.value.boxOffice.None? ==> r == []
    ensures movie.Some? && movie.value.boxOffice.Some? ==>
      var all := BoxOfficeEntryList(movie.value.boxOffice.value);
      && Js.IsSubsequence(r, all) && |r| <= 4
      && (forall i :: 0 <= i < |r| ==> r[i] in all && Js.Truthy(r[i].value))
      && (forall i :: 0 <= i < |all| && Js.Truthy(all[i].value) ==> all[i] in r)
  {
    if movie.None? || movie.value.boxOffice.None? then [] else KeepTruthy(BoxOfficeEntryList(movie.value.boxOffice.value))
  }

  /** A rating of 0, an empty string or null is dropped; a non-zero rating is kept. */
  lemma ZeroRatingDropped(x: real)
    requires x != 0.0
    ensures var r := Ratings(Js.Num(Js.Finite(0.0)), Js.Str(""), Js.Null, Js.Undefined, Js.Num(Js.Finite(x)));
      RatingsList(Some(Movie(Some(r), None))) == [Entry("Rotten Tomatoes", Js.Num(Js.Finite(x)))]
  {
    var r := Ratings(Js.Num(Js.Finite(0.0)), Js.Str(""), Js.Null, Js.Undefined, Js.Num(Js.Finite(x)));
    var es := RatingEntries(r);
    assert es == es[..4] + [es[4]];
    Js.FilterAppend(es[..4], [es[4]], HasValue());
    Js.FilterDropsAll(es[..4], HasValue());
  }
}
