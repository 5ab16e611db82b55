# Movie browser front end: verified model of its client-side state logic

This project models, in Dafny, the parts of the `movies-web` React front end
that hold checkable logic, and proves properties of them:

- **The paged window cache** of the "Most Popular" and "Top Rating"
  carousels (`PageWindow`). Both components carry the same code, so one
  class `PageWindowCache` models both, with one constructor per component
  (they differ only in their fallback error text). The state is an
  append-only list of movies, the set of server pages already loaded, the
  cursor of a three-movie window and the flag that admits one "load next
  page" request at a time. `goNext` is asynchronous. It is split at its
  `await` into `BeginNext` (what runs when the click is handled) and
  `CompleteNext` (what runs when the request settles). Other clicks can be
  interleaved between the two. `GoNext` is the uninterrupted composition.
- **The REST client's pure parts** (`Api`): the page-size cap
  `Math.min(Number(limit) || 12, 12)`, the rejection of a response that is
  not OK, and the merge of the first two pages.
- **The wrap-around "Top Revenue" carousel** (`TopRevenue`).
- **The search page** (`Search`): the blank-query reset, the twelve
  displayed results, `hasMore`, and the page number.
- **The toast list** (`Toasts`), **the authentication state and its sync
  with the browser store** (`Auth`), **the registration schema**
  (`Register`) and **the filtered rating and box-office lists** of the movie
  page (`MovieDetail`).
- `Js` holds the JavaScript semantics these rely on: truthiness, `||`
  defaults, `Math.min`, `slice`, `filter` and `trim`.

A request's outcome is always a parameter (`Result`), because the network
is outside the model. So are the unmount flag of an effect, the id of a new
toast and the JSON conversion of a user.

Behaviour of the code that the model makes explicit:

- **A fetching click stays at the old tail.** The click that requests a
  new page clamps the cursor with the list length it captured before the
  `await`. The new movies become visible only on the following click
  (`FetchingClickStaysAtTail`).
- **The outer guard decides when a page is fetched.**
  `ensureMoreIfNeeded` tests `next >= len - 3`, but `goNext` calls it only
  when `next > len - 3`. With 24 movies, a tentative cursor of 21 just
  moves the window, and page 3 is requested at 24. `ScenarioThirdPage`
  walks through this case.
- **A failed page request leaves the cursor alone.** `ensureMoreIfNeeded`
  re-throws, so `goNext` rejects before `setCursor` and the cursor is
  unchanged. The failed page is not marked loaded, so a later click
  retries it.
- **A short page stops loading for good.** The next page index,
  `floor(len / 12) + 1`, then names a page already loaded
  (`ShortPageStopsLoading`).
- **Search hides part of every server page.** Each request asks for 21
  results, but only 12 are shown. Under offset paging, results 13 to 21 of
  every server page are never displayed (`TailOfEveryPageHidden`, stated
  over `ServerPage` and `DisplayedResults`). The
  page number is not reset when the query changes.
- **The initial auth state can disagree with itself.** A stored text
  `"null"` makes `isAuthenticated` true while `user` is null, until the
  sync effect runs (`InitialStateMayDisagree`).

## Model

| member | source | states |
|---|---|---|
| `PageWindow.MaxCursor` | movies-web/src/components/movie/MostPopularCarousel.jsx:69 | `Math.max(len - 3, 0)`: 0 below three movies, otherwise the cursor of the last full window |
| `PageWindow.Clamp` | movies-web/src/components/movie/MostPopularCarousel.jsx:69 | the clamped cursor is never above the tentative one nor above `max(len - 3, 0)`, is one of the two, and is non-negative for a non-negative tentative cursor |
| `PageWindow.NextPageIndex` | movies-web/src/components/movie/MostPopularCarousel.jsx:49 | `floor(total / 12) + 1` is the page whose 12-item range contains position `total`, i.e. the page after the last complete one, and is at least 1 |
| `PageWindow.CurrentSlice` | movies-web/src/components/movie/MostPopularCarousel.jsx:19 | the window holds at most 3 items, and they are the consecutive items starting at the cursor; for a cursor in bounds it is full whenever the list has at least 3 items |
| `PageWindow.PrevCursor` | movies-web/src/components/movie/TopRatingCarousel.jsx:72 | `goPrev`'s target is at most 3 below the cursor, never above it, and is either 0 or exactly 3 below |
| `PageWindow.NextStep` | movies-web/src/components/movie/MostPopularCarousel.jsx:43-69 | the decision a click makes: nothing exactly on an empty list; a request only with no request in flight, for the not-yet-loaded page `floor(len/12)+1`, remembering the tentative cursor `cursor + 3` and the length seen; otherwise a move to `min(cursor + 3, max(len - 3, 0))`, the clamp of line 69, which lies within `[0, max(len - 3, 0)]` and at most 3 ahead |
| `PageWindow.NextStepSpec` | movies-web/src/components/movie/MostPopularCarousel.jsx:43-69 | a click ignores an empty list; it requests a page iff the tentative cursor passes `len - 3`, no request is in flight and page `floor(len/12)+1` is not loaded; the page requested is that one; otherwise the cursor moves to `min(cursor + 3, max(len - 3, 0))`, never backward, at most 3 ahead and within `[0, max(len - 3, 0)]` |
| `PageWindow.NoSecondRequestInFlight` | movies-web/src/components/movie/MostPopularCarousel.jsx:48 | while the in-flight flag is set, no click requests a page |
| `PageWindow.FetchingClickStaysAtTail` | movies-web/src/components/movie/MostPopularCarousel.jsx:63-70 | after the click that requested a page, the clamp with the captured length puts the cursor at the old tail `max(len - 3, 0)`, never below where it was |
| `PageWindow.PrevThenNext` | movies-web/src/components/movie/TopRatingCarousel.jsx:60-74 | a step back followed by a step forward returns to the same window without a request |
| `PageWindow.FullPageAdvancesPageIndex` | movies-web/src/components/movie/TopRatingCarousel.jsx:47 | after a full page of 12 the next request names the following page |
| `PageWindow.ShortPageStopsLoading` | movies-web/src/components/movie/MostPopularCarousel.jsx:49-50 | once page `p` is loaded with fewer than 12 items, the computed page index is `p` again, so no click ever requests another page |
| `PageWindow.PageWindowCache.MostPopular` | movies-web/src/components/movie/MostPopularCarousel.jsx:10-17 | a fresh cache: no items, no loaded pages, cursor 0, flag clear, not loading, no error |
| `PageWindow.PageWindowCache.TopRating` | movies-web/src/components/movie/TopRatingCarousel.jsx:8-15 | the same fresh state, with the Top Rating fallback error text |
| `PageWindow.PageWindowCache.StartBootstrap` | movies-web/src/components/movie/MostPopularCarousel.jsx:23-25 | bootstrap starts by setting `loading` and clearing the error |
| `PageWindow.PageWindowCache.FinishBootstrap` | movies-web/src/components/movie/MostPopularCarousel.jsx:26-37 | after unmount nothing changes; on success the items are the merged data, the loaded pages are {1, 2} and the cursor is 0; on failure only the error is set, to the message or the fallback; `loading` ends on both paths |
| `PageWindow.PageWindowCache.BeginNext` | movies-web/src/components/movie/TopRatingCarousel.jsx:41-67 | the click's decision is `NextStep` of the state it sees; a requesting click takes the flag and keeps the cursor; any other click sets the cursor at once; items and loaded pages are untouched and the cursor stays in bounds |
| `PageWindow.PageWindowCache.CompleteNext` | movies-web/src/components/movie/TopRatingCarousel.jsx:50-67 | on success the page's items are appended after the existing ones, the page is marked loaded and the cursor is clamped with the captured length; on failure nothing but the flag changes and the click rejects with the error; the flag is released on both paths |
| `PageWindow.PageWindowCache.GoNext` | movies-web/src/components/movie/MostPopularCarousel.jsx:61-71 | an uninterrupted click: nothing on an empty list; otherwise the cursor moves as `NextStep` says; a successful request appends the page, keeps the old list as a prefix and leaves the cursor at the old tail; the flag ends as it began |
| `PageWindow.PageWindowCache.GoPrev` | movies-web/src/components/movie/MostPopularCarousel.jsx:73-77 | nothing on an empty list; otherwise the cursor becomes `max(cursor - 3, 0)`; only the cursor may change, so no request is made |
| `Api.CapLimit` | movies-web/src/service/api.js:4-8 | the limit sent is never above 12 and never zero or NaN; a missing, zero or NaN limit becomes 12; a truthy limit up to 12 is kept; a limit of 12 or more becomes 12 |
| `Api.FirstTwoPagesRequests` | movies-web/src/service/api.js:27-30 | the prefetch requests pages 1 and 2 with limit 12 each |
| `Api.GetMostPopular` | movies-web/src/service/api.js:10-22 | resolves to the body exactly when the transport succeeds with an OK response; a transport failure rejects unchanged; a response that is not OK rejects with "API error: <status>" |
| `Api.MostPopularRequest` | movies-web/src/service/api.js:4-9 | the request carries the page as given and a capped limit: never above 12, never zero or NaN, and 12 when no limit is passed |
| `Api.ApiErrorMessage` | movies-web/src/service/api.js:19 | the message is "API error: " followed by the status in decimal, which reads back to the status |
| `Api.ApiErrorMessageInjective` | movies-web/src/service/api.js:19 | different statuses give different error messages (the decimal status reads back) |
| `Api.DataOrEmpty` | movies-web/src/service/api.js:33 | `p?.data || []`: the page's items, or none when the body or its data is missing |
| `Api.MergeFirstTwoPages` | movies-web/src/service/api.js:31-35 | the merged list has `len(p1.data) + len(p2.data)` items, all of page 1 first in order, then all of page 2; the title falls back to "Most Popular" and the pagination to `{current_page: 1, page_size: 12}` |
| `Api.PrefetchFirstTwoPages` | movies-web/src/service/api.js:25-37 | resolves iff both pages resolve, to their merge; otherwise rejects with the error of a page that failed, the only failure's when just one fails |
| `Api.PrefetchOrderIndependent` | movies-web/src/service/api.js:27-30 | the outcome does not depend on which request settles first, unless both fail with different errors |
| `TopRevenue.NextIndex` | movies-web/src/components/movie/TopRevenueCarousel.jsx:38 | the next index is within `[0, n)`: one more, or 0 after the last |
| `TopRevenue.PrevIndex` | movies-web/src/components/movie/TopRevenueCarousel.jsx:43 | the previous index is within `[0, n)`: one less, or the last from 0 |
| `TopRevenue.PrevAfterNext` | movies-web/src/components/movie/TopRevenueCarousel.jsx:36-44 | `goPrev` after `goNext` returns to the original index |
| `TopRevenue.NextAfterPrev` | movies-web/src/components/movie/TopRevenueCarousel.jsx:41-44 | `goNext` after `goPrev` returns to the original index |
| `TopRevenue.FullTurn` | movies-web/src/components/movie/TopRevenueCarousel.jsx:36-39 | `movies.length` clicks on "next" come back to the starting index |
| `TopRevenue.Counter` | movies-web/src/components/movie/TopRevenueCarousel.jsx:106 | the label shows `0 / 0` for an empty list and `index + 1 / length` otherwise |
| `TopRevenue.LoadRequest` | movies-web/src/components/movie/TopRevenueCarousel.jsx:19 | the load requests page 1 with limit 5 (below the cap) |
| `TopRevenue.RevenueCarousel.constructor` | movies-web/src/components/movie/TopRevenueCarousel.jsx:8-11 | no movies, index 0, not loading, no error |
| `TopRevenue.RevenueCarousel.StartLoad` | movies-web/src/components/movie/TopRevenueCarousel.jsx:16-17 | loading is set and the error cleared |
| `TopRevenue.RevenueCarousel.FinishLoad` | movies-web/src/components/movie/TopRevenueCarousel.jsx:18-28 | after unmount nothing changes; a successful load sets the movies and resets the index to 0; a failure sets the error; the index stays a valid position |
| `TopRevenue.RevenueCarousel.GoNext` | movies-web/src/components/movie/TopRevenueCarousel.jsx:36-39 | nothing on an empty list, otherwise the index becomes `NextIndex` and stays within `[0, length)` |
| `TopRevenue.RevenueCarousel.GoPrev` | movies-web/src/components/movie/TopRevenueCarousel.jsx:41-44 | nothing on an empty list, otherwise the index becomes `PrevIndex` and stays within `[0, length)` |
| `Js.TrimEmptyIffBlank` | movies-web/src/pages/Search.jsx:26 | `!query.trim()` holds exactly for queries made only of whitespace, the empty one included |
| `Search.IsBlank` | movies-web/src/pages/Search.jsx:26 | `!query.trim()` is true exactly for a query made only of whitespace, the empty one included |
| `Search.HasMore` | movies-web/src/pages/Search.jsx:51 | `hasMore` is true whenever more than 12 results were fetched; when all fetched results are shown it follows `current_page < total_pages` alone; without pagination it follows the result count alone |
| `Search.ServerPage` | movies-web/src/pages/Search.jsx:35 | under offset paging, the request for page `p` with limit 21 returns the results at positions `21(p-1)` onward, 21 of them when that many exist |
| `Search.DisplayedResults` | movies-web/src/pages/Search.jsx:50 | the displayed results are the first `min(12, len)` results, in order |
| `Search.NoMoreIffAllShown` | movies-web/src/pages/Search.jsx:51 | `hasMore` is false exactly when every fetched result is displayed and the pagination reports no page after the current one |
| `Search.TailOfEveryPageHidden` | movies-web/src/pages/Search.jsx:35-51 | the results shown for server page `p` are exactly the results at positions `21(p-1) + i` with `i < 12`, so no result whose position `g` has `g % 21 >= 12` is shown on any page |
| `Search.SearchPage.constructor` | movies-web/src/pages/Search.jsx:13-19 | the query from the URL, no results, no pagination, page 1 |
| `Search.SearchPage.SetQuery` | movies-web/src/pages/Search.jsx:13 | navigation replaces the query and nothing else |
| `Search.SearchPage.BeginFetch` | movies-web/src/pages/Search.jsx:23-35 | a blank query clears results and pagination and sends nothing; otherwise it sets loading, clears the error and sends the query, the current page and limit 21 |
| `Search.SearchPage.FinishFetch` | movies-web/src/pages/Search.jsx:36-44 | after cleanup nothing changes; success sets results and pagination from the body; failure sets the error or "Failed to search movies"; loading ends |
| `Search.SearchPage.HandleNext` | movies-web/src/pages/Search.jsx:53-56 | the page rises by exactly 1 |
| `Search.SearchPage.HandlePrev` | movies-web/src/pages/Search.jsx:58-63 | the page drops by 1 only from above 1, so it never goes below 1 |
| `Toasts.Dismissed` | movies-web/src/context/ToastContext.jsx:12 | dismissal removes every toast with the id and keeps every other toast as many times as it occurred, in the original order |
| `Toasts.DismissIdempotent` | movies-web/src/context/ToastContext.jsx:12 | dismissing an id twice is dismissing it once |
| `Toasts.DismissAbsent` | movies-web/src/context/ToastContext.jsx:12 | dismissing an id no toast carries changes nothing |
| `Toasts.DismissAppend` | movies-web/src/context/ToastContext.jsx:11-13 | dismissal acts on each part of the list separately |
| `Toasts.ShowThenDismiss` | movies-web/src/context/ToastContext.jsx:8-13 | showing a toast with a fresh id and then dismissing it restores the list |
| `Toasts.ToneOf` | movies-web/src/context/ToastContext.jsx:25-29 | green exactly for 'success', red exactly for 'error', slate otherwise |
| `Toasts.UseToast` | movies-web/src/context/ToastContext.jsx:40-43 | throws "useToast must be used within ToastProvider" exactly when there is no provider, and otherwise returns the context value |
| `ReactContext.RequireProvider` | movies-web/src/context/ToastContext.jsx:41-43 | a hook throws its message exactly when the context value is missing, and otherwise returns it |
| `Toasts.ToastProvider.constructor` | movies-web/src/context/ToastContext.jsx:6 | the list starts empty |
| `Toasts.ToastProvider.ShowToast` | movies-web/src/context/ToastContext.jsx:8-10 | exactly one toast `{id, message, type}` is appended after the existing ones; the type defaults to 'info' and the timer to 3000 ms |
| `Toasts.ToastProvider.Dismiss` | movies-web/src/context/ToastContext.jsx:11-13 | the list becomes `Dismissed` of the old one |
| `Auth.HasStoredUser` | movies-web/src/context/AuthContext.jsx:12 | `!!localStorage.getItem('user')`: the store holds a non-empty 'user' entry |
| `Auth.InitialUser` | movies-web/src/context/AuthContext.jsx:6-9 | the initial user is the parsed stored text when it is non-empty, and null otherwise |
| `Auth.SyncedStore` | movies-web/src/context/AuthContext.jsx:15-23 | a present user is stored under 'user', an absent one removes the key, and no other key changes |
| `Auth.SyncEstablishesInStep` | movies-web/src/context/AuthContext.jsx:15-23 | after the effect, `isAuthenticated == (user != null)` and the store holds exactly the current user |
| `Auth.InitialStateMayDisagree` | movies-web/src/context/AuthContext.jsx:6-13 | a stored "null" gives `isAuthenticated` true with no user before the effect runs |
| `Auth.LoginSurvivesRemount` | movies-web/src/context/AuthContext.jsx:16-18 | after login and sync, a new mount reads the same user back and starts authenticated |
| `Auth.LogoutSurvivesRemount` | movies-web/src/context/AuthContext.jsx:19-21 | after logout and sync, a new mount starts with no user and not authenticated |
| `Auth.UseAuth` | movies-web/src/context/AuthContext.jsx:40-45 | throws "useAuth must be used within AuthProvider" exactly when there is no provider, and otherwise returns the context value |
| `Auth.AuthProvider.constructor` | movies-web/src/context/AuthContext.jsx:5-13 | initially `user` is read from the store and `isAuthenticated` is true iff the store holds a non-empty 'user' entry |
| `Auth.AuthProvider.Sync` | movies-web/src/context/AuthContext.jsx:15-23 | the store and the flag are brought in step with `user` |
| `Auth.AuthProvider.Login` | movies-web/src/context/AuthContext.jsx:25-27 | the user becomes the given one |
| `Auth.AuthProvider.Logout` | movies-web/src/context/AuthContext.jsx:29-31 | the user becomes null |
| `Register.MatchesByPosition` | movies-web/src/pages/Register.jsx:17-18 | an anchored pattern of `\d` and literals matches exactly the strings of its length that match position by position |
| `Register.UsernameValid` | movies-web/src/pages/Register.jsx:14 | `z.string().min(3)`: at least 3 characters |
| `Register.PasswordValid` | movies-web/src/pages/Register.jsx:16 | `z.string().min(6)`: at least 6 characters |
| `Register.PhoneValid` | movies-web/src/pages/Register.jsx:17 | the anchored pattern `\d{10}` accepts a phone number exactly when it is 10 ASCII digits |
| `Register.DobValid` | movies-web/src/pages/Register.jsx:18 | the anchored pattern `\d{4}-\d{2}-\d{2}` accepts a date of birth exactly when it is 4 digits, '-', 2 digits, '-', 2 digits |
| `Register.DobAcceptsImpossibleDate` | movies-web/src/pages/Register.jsx:18 | there is no calendar check: "2024-13-45" is accepted |
| `Register.Issues` | movies-web/src/pages/Register.jsx:13-19 | the form has no issue iff the username has at least 3 characters, the e-mail is valid, the password has at least 6, and the phone and date checks hold |
| `Register.ServerError` | movies-web/src/pages/Register.jsx:51 | the error shown is the failure's message, or 'Registration failed' when it has none |
| `MovieDetail.RatingEntries` | movies-web/src/pages/MovieDetail.jsx:38-44 | the ratings table has exactly five entries, one per rating source |
| `MovieDetail.BoxOfficeEntryList` | movies-web/src/pages/MovieDetail.jsx:50-55 | the box-office table has exactly four entries, one per figure |
| `MovieDetail.KeepTruthy` | movies-web/src/pages/MovieDetail.jsx:45 | the filter keeps exactly the entries with a truthy value, each as many times as it occurred, in their order |
| `MovieDetail.RatingsList` | movies-web/src/pages/MovieDetail.jsx:36-46 | empty without ratings; otherwise an order-preserving selection of IMDb, Metacritic, TheMovieDB, FilmAffinity, Rotten Tomatoes, at most 5, keeping exactly the truthy values |
| `MovieDetail.BoxOfficeEntries` | movies-web/src/pages/MovieDetail.jsx:48-57 | empty without box office; otherwise an order-preserving selection of the 4 fixed labels keeping exactly the truthy values |
| `MovieDetail.ZeroRatingDropped` | movies-web/src/pages/MovieDetail.jsx:45 | ratings of 0, "", null and undefined are dropped and a non-zero one is kept |

## Left out

- Network I/O. This covers `fetch`, the backend URL, the app token
  header and `response.json()`, including a body that does not parse. The
  outcome of every request is a parameter of the model.
- `getTopRatedMovies`, `prefetchTopRatedFirstTwoPages` and `searchMovies`
  are not part of this model. The Top Rating carousel is modelled on the
  assumption that its pair behaves like the most-popular pair.
- `Api.CapLimit`: `Number(limit)` is modelled only for arguments that are
  already numbers or missing. That is what every caller in the application
  passes; string-to-number conversion is not modelled.
- Real asynchrony and React's rendering are not modelled. A click is
  assumed to see the state left by the previous operation. If a click is
  handled before React re-renders after a page arrived, it sees an older
  list and loaded-page set, and could request the same page again. The
  model does not capture that window.
- `PageWindow.PageWindowCache.CompleteNext` requires that the list has
  not shrunk since the click. Only a second bootstrap could shrink it, and
  the effect runs once per mount.
- State updates after unmount are not modelled. React discards them; the
  only unmount guard modelled is the `ignore` flag of the effects.
- Timers are not modelled: the toast dismissal timer is the explicit
  `Dismiss` operation.
- Registration submission is not modelled. This covers `registerUser`,
  the success toast and the delayed navigation. The e-mail format check
  belongs to the validation library and enters `Register.Issues` as a
  boolean.
- The search server is not part of this model. `Search.ServerPage`
  assumes it pages by offset, so page `p` with limit 21 starts at result
  `21(p-1)`.
- Generated values are parameters: toast ids (`crypto.randomUUID` or
  `Date.now`) and the JSON text of a stored user (`JSON.stringify`,
  `JSON.parse`). A stored text that fails to parse throws in the source and
  is not modelled.
- `Auth.AuthProvider.Login` accepts any user value as present. A falsy
  value passed to `login` is not modelled.
- String lengths count characters. JavaScript counts UTF-16 code units, so
  characters outside the Basic Multilingual Plane would count twice in the
  source.
- Presentation is not modelled: markup, class strings, theme, scrolling,
  image fallbacks, the rating percentages (floating point) and date
  formatting.
- Other pages are not modelled (Person, Profile, Favorites, home), nor the
  routing and layout components.
