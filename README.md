# Random discovery in the movie browser, modelled in Dafny

The movie browser's client asks a remote movie catalog for pages of movies.
Its random-discovery mode has two parts, and this project models both.

1. **The catalog client** (`TmdbApi`, `tmdb_api.dfy`):
   - the record shapes it exchanges with the catalog;
   - the image URL builder;
   - the discovery query builder, which turns a filter record into the request's parameter map;
   - the random page scanner, which:
     - fetches up to `pagesToScan` consecutive pages from `startPage`, and stops after the last page;
     - ranks the buffer by popularity;
     - shuffles it;
     - keeps the first `count` movies.

   The scanning loop is a method with loop invariants (`CollectPages`). The scanner as a whole is `GetRandomMovies`. Both are proved against the recursive specification `ScanPages` / `SampleOf`.
2. **The movie store** (`MoviesState`, `movies_state.dfy`; `MoviesStore`, `movies_store.dfy`):
   - `MoviesState` holds the store's state record, its getters, and one transition function per action, giving the state the action leaves once its request has been answered. It also holds the lemmas about random mode, the cursor, the clear actions and the similar-movie filters.
   - `MoviesStore.Store` is the store as an object. Its fields are the state record's fields, with one method per action. Each method makes the action's assignments in the source's order, and is proved to leave exactly the state the matching transition describes.

`Wrappers` (`wrappers.dfy`) holds `Option` and `Result`. `Text` (`text.dfy`) holds decimal rendering and parsing, plus comma join and split; these support the genre-list round trip.

The outside world enters as parameters:
- The discovery endpoint is a `Catalog`, a function from the parameter map to a page or a failure.
- The scanner reads a `PageSource`, the catalog's answers for one filter record, page by page.
- The store's random actions take a `Draw`, which is `getRandomMovies` as the store sees it. `MoviesState.Scanner` is the draw the client provides, and `MoviesState.ScannerIsRandomMovies` ties it to the client's `TmdbApi.RandomMovies`.
- The listing, search and similar-movies endpoints are their answers, or functions to them.
- The shuffle's randomness is a sequence of `picks`, and the index of the selected random movie is a `pick`.

Where a design description of random mode and the code disagree, the model follows the code:
- **Extending without a session.** The description says this fails with a "no active session" error. In the code, `fetchMoreRandomMovies` returns at once and changes nothing, not even the error or the loading flag (`MoviesState.FetchMoreWithoutFiltersChangesNothing`).
- **The cursor after the initial draw.** The description says it is the last page the scan reached. In the code, a successful draw always sets it to 3, even when the scan ended early or came back empty. A failed draw leaves it as it was (`MoviesState.FetchRandomMoviesSavesFiltersAndSelects`).
- **Whether the cursor can go back.** The description says it never regresses or rescans a consumed page. In the code, `currentPage` is one field shared by search, similar movies and random mode. `clearSearch`, `clearSimilarMovies`, `searchMovies` and `fetchSimpleSimilarMovies` all move it. After a draw that went past page 1, `clearSearch` makes the next extension ask for page 2 again (`MoviesState.ClearSearchRescansConsumedPage`). Successive successful steps ask for disjoint pages: a successful draw and the extension after it, and two successful extensions in a row (`MoviesState.InitialDrawAndExtensionScanDisjointPages`, `MoviesState.ConsecutiveExtensionsScanDisjointPages`). A failed extension leaves the cursor where it was, so a retry asks for the same pages again (`MoviesState.FetchMoreRandomMoviesAppends`).
- **Failed draws.** A failed initial draw still saves the filters, because they are assigned before the request.

## Model

| member | source | states |
|---|---|---|
| TmdbApi.ImageUrl | src/services/tmdbApi.ts:119-122 | the URL is the placeholder `/placeholder-movie.svg` exactly when the path is null or empty |
| TmdbApi.DefaultImageUrl | src/services/tmdbApi.ts:119-122 | a call without a size uses `w500`: the placeholder for a null or empty path, and otherwise the base URL, `/w500` and the path |
| TmdbApi.ImageUrlParts | src/services/tmdbApi.ts:119-122 | a non-empty path gives the image base URL, `/`, the size and the path, in that order, each read back from the URL |
| TmdbApi.GenreList | src/services/tmdbApi.ts:192 | the genre ids in decimal, in their order, separated by commas |
| TmdbApi.DiscoverParams | src/services/tmdbApi.ts:173-206 | the discovery parameter map: the five fixed parameters, then each filter parameter added under the same condition and in the same order as the source |
| TmdbApi.KeyNamesDistinct | src/services/tmdbApi.ts:174-205 | distinct query parameters have distinct wire names, so a map keyed by parameter is the request's parameter record |
| TmdbApi.DiscoverFixedParams | src/services/tmdbApi.ts:174-180 | every query carries `page` equal to the argument, `sort_by = popularity.desc`, `include_adult` and `include_video` false and `language = pt-BR` |
| TmdbApi.DiscoverReleaseDates | src/services/tmdbApi.ts:182-189 | the lower date bound is present exactly when `yearFrom` is non-empty, and is then `yearFrom-01-01`; the upper one likewise for `yearTo`, as `yearTo-12-31`; with neither year there is no date key |
| TmdbApi.DiscoverGenres | src/services/tmdbApi.ts:191-193 | `with_genres` is present exactly when the genre list is non-empty, and is then the ids joined with commas |
| TmdbApi.GenreListRoundTrip | src/services/tmdbApi.ts:192 | splitting the joined genre list at commas and parsing each part gives back exactly the ids |
| TmdbApi.DiscoverRuntime | src/services/tmdbApi.ts:195-200 | each runtime bound is present exactly when its own field is non-null, independently of the other, and equals that field |
| TmdbApi.DiscoverRating | src/services/tmdbApi.ts:202-205 | `vote_average.gte` is present exactly when `minRating` is given, and equals it; `vote_count.gte = 50` is present exactly when `vote_average.gte` is |
| TmdbApi.DiscoverExample | src/services/tmdbApi.ts:173-206 | the query for years 2020 to 2022, genre 28, at least 90 minutes and rating 7 at page 1, parameter by parameter (including the fixed flags and language), and has exactly the five fixed keys plus the six filter keys |
| TmdbApi.ReachedLastPage | src/services/tmdbApi.ts:222 | the stop test `page >= (total_pages \|\| page)` holds exactly when the total is zero (missing) or the page has reached it |
| TmdbApi.ScanPages | src/services/tmdbApi.ts:216-224 | the scanning loop as a recursion: fetch `page`, keep its results, stop after `remaining` pages, after the last page, or at the first failed fetch, which fails the scan |
| TmdbApi.ScanRequestsConsecutivePages | src/services/tmdbApi.ts:216-224 | a successful scan makes at most `pagesToScan` fetches (at least one when it may fetch at all); its i-th fetch asks for page `startPage + i`; every fetch was answered; and the buffer is their results in order |
| TmdbApi.ScanStopsAtLastPage | src/services/tmdbApi.ts:219-224 | a scan goes past a page only when that page is not the last, and ends before its budget only right after the last page |
| TmdbApi.ScanFailsOnlyOnFetchFailure | src/services/tmdbApi.ts:216-234 | a failing scan fails with the error of a fetch within its window, every earlier page having been answered and not being the last |
| TmdbApi.SinglePageScan | src/services/tmdbApi.ts:219-224 | when the first page is also the last, the scan fetches exactly that page and collects its results |
| TmdbApi.CollectPages | src/services/tmdbApi.ts:216-224 | the scanning loop fails exactly when the scan specification does, with its error, and otherwise returns the collected buffer |
| TmdbApi.PopularityKey | src/services/tmdbApi.ts:227 | a movie's ranking key, its popularity with a missing one counting as 0 |
| TmdbApi.ByPopularityPairwise | src/services/tmdbApi.ts:226-228 | in a list ranked by popularity, every earlier movie is at least as popular as every later one |
| TmdbApi.InsertByPopularity | src/services/tmdbApi.ts:226-228 | inserting into a ranked list keeps it ranked and adds exactly that movie |
| TmdbApi.RankByPopularity | src/services/tmdbApi.ts:226-228 | the ranking is most popular first, with a missing popularity counting as 0, and is a permutation of the buffer |
| TmdbApi.Shuffle | src/services/tmdbApi.ts:229 | every pick sequence gives a permutation of its input |
| TmdbApi.ShuffleReachesEveryPermutation | src/services/tmdbApi.ts:229 | every permutation of the input is the shuffle of some pick sequence |
| TmdbApi.SliceEnd | src/services/tmdbApi.ts:230 | the end index of `slice(0, count)` lies within the list |
| TmdbApi.RandomSample | src/services/tmdbApi.ts:225-230 | the sample is a sub-multiset of the buffer; its length is `min(count, buffer length)` for a non-negative count; an empty buffer gives `[]` |
| TmdbApi.RandomSampleCoversEveryReordering | src/services/tmdbApi.ts:225-230 | for any reordering of the buffer, some pick sequence makes the sample its first `count` movies |
| TmdbApi.SampleOf | src/services/tmdbApi.ts:216-234 | the scanner fails exactly when its scan fails, with the same error and no partial list; on success it returns a sub-multiset of all fetched results |
| TmdbApi.SampleScansWindow | src/services/tmdbApi.ts:218-230 | a successful call asks only for pages in `[startPage, startPage + pagesToScan)` and returns `min(count, buffer length)` movies |
| TmdbApi.RandomMovies | src/services/tmdbApi.ts:210-235 | `getRandomMovies` over the discovery endpoint: scan the window, then rank, shuffle and keep `count`; a failed fetch fails the whole call |
| TmdbApi.GetRandomMovies | src/services/tmdbApi.ts:210-235 | the scanner method (collect, rank, shuffle, truncate, propagate the failure) returns exactly the scanner's specification `RandomMovies` |
| MoviesState.Initial | src/stores/movies.ts:11-40 | the store's initial state: every list empty, no query, cursor 1, zero totals, nothing selected or saved, not loading, no error |
| MoviesState.HasMovies | src/stores/movies.ts:43 | there are popular or now-playing movies |
| MoviesState.HasSearchResults | src/stores/movies.ts:44 | there are search results |
| MoviesState.HasSimilarMovies | src/stores/movies.ts:45 | there are similar movies |
| MoviesState.HasRandomMovies | src/stores/movies.ts:46 | there are drawn random movies |
| MoviesState.Filter | src/stores/movies.ts:48-56 | the filtered list keeps exactly the matching elements, each with its multiplicity, and is no longer than the original |
| MoviesState.FilterConcat | src/stores/movies.ts:48-56 | filtering keeps the original order: the filter of a concatenation is the concatenation of the filtered parts |
| MoviesState.TopSimilarMovies | src/stores/movies.ts:48-49 | the similar movies whose similarity score is positive, a missing score counting as 0, in their order |
| MoviesState.MoviesWithSharedCrew | src/stores/movies.ts:51-56 | the similar movies that share at least one cast or crew member, in their order |
| MoviesState.Constrains | src/stores/movies.ts:64-72 | a filter record sets a year, a genre, a runtime bound or a rating bound |
| MoviesState.HasAppliedFilters | src/stores/movies.ts:58-73 | filters are saved, they are not a dynamic draw, and they constrain something |
| MoviesState.ConstrainsIffExtraParams | src/stores/movies.ts:64-72 | a filter record constrains something exactly when its discovery query carries a parameter beyond the five fixed ones |
| MoviesState.HasAppliedFiltersIffNarrowerQuery | src/stores/movies.ts:58-73 | `hasAppliedFilters` holds exactly when filters are saved, the draw is not dynamic, and their query is narrower than the unfiltered one |
| MoviesState.FetchPopularMovies | src/stores/movies.ts:78-91 | the popular listing replaces the popular movies and clears the error, or a failure sets the popular-listing message; the loading flag ends down |
| MoviesState.FetchNowPlayingMovies | src/stores/movies.ts:94-107 | the same for the now-playing listing and its message |
| MoviesState.SearchMovies | src/stores/movies.ts:110-127 | the query is remembered, then the answered page's results, page and totals are stored and the error cleared, or a failure sets the search message |
| MoviesState.PickIndex | src/stores/movies.ts:164 | the random index always lies within the drawn list |
| MoviesState.ScannerIsRandomMovies | src/stores/movies.ts:160 | over the discovery endpoint, the store's draw is the client's `getRandomMovies` |
| MoviesState.FetchRandomMovies | src/stores/movies.ts:154-174 | the filters are saved, then a successful draw of 21 movies from pages 1 to 3 replaces the list, selects one drawn movie when there is one and sets the cursor to 3, or a failure sets the draw message |
| MoviesState.FetchRandomMoviesSavesFiltersAndSelects | src/stores/movies.ts:154-174 | the filters are saved even when the draw fails; on success the list is the drawn one, the cursor is 3, a non-empty draw selects one of its own movies and an empty draw keeps the old selection; on failure the list, selection and cursor stay and the error is the fixed message |
| MoviesState.FetchRandomMoviesOutcome | src/stores/movies.ts:157-170 | with the page scanner as the draw, the error is cleared exactly when the scan succeeds; a successful draw asked only for pages 1 to 3 and holds `min(21, buffer length)` of their movies; a failed one keeps the old list |
| MoviesState.FetchMoreRandomMovies | src/stores/movies.ts:176-198 | without saved filters nothing changes; otherwise 10 movies are drawn from the 2 pages after the cursor and the outcome is `Extended` |
| MoviesState.Extended | src/stores/movies.ts:190-197 | a successful extension appends the drawn movies, puts the cursor one past the start page and clears the error; a failed one sets the extension message; the loading flag ends down |
| MoviesState.FetchMoreWithoutFiltersChangesNothing | src/stores/movies.ts:177 | without saved filters an extension leaves the whole state as it was |
| MoviesState.FetchMoreRandomMoviesAppends | src/stores/movies.ts:176-198 | an extension asks for 10 movies from 2 pages after the cursor; on success the old list is a prefix followed by exactly the drawn movies and the cursor moves by 2; on failure list and cursor stay and the error is the fixed message; the filters stay either way |
| MoviesState.FetchMoreRandomMoviesScansAfterCursor | src/stores/movies.ts:183-191 | with the page scanner as the draw, an extension fails exactly when its scan does, and a successful one moves the cursor by 2 whatever page the scan reached |
| MoviesState.ExtensionScanWindow | src/stores/movies.ts:183-189 | a successful extension scan asks only for the two pages after the cursor |
| MoviesState.ExtendedOutcome | src/stores/movies.ts:190-194 | an extension clears the error exactly when its draw succeeds, and then leaves the cursor one past the extension's start page |
| MoviesState.ScannerExtends | src/stores/movies.ts:183-191 | with the page scanner as the draw, an extension settles on the sample of the two pages after the cursor, which succeeds exactly when that scan does |
| MoviesState.FetchMoreRandomMoviesAddsAtMostTen | src/stores/movies.ts:183-190 | a successful extension keeps the old list as a prefix and appends at most 10 movies, all from the scanned pages' results |
| MoviesState.InitialDrawAndExtensionScanDisjointPages | src/stores/movies.ts:157-191 | after a successful initial draw the filters are saved, the next extension scans from page 4, and it asks for no page the draw asked for |
| MoviesState.ConsecutiveExtensionsScanDisjointPages | src/stores/movies.ts:183-191 | two extensions in a row keep the filters, advance the cursor by 2 and ask for disjoint pages |
| MoviesState.ClearSearchRescansConsumedPage | src/stores/movies.ts:224-231 | clearing the search after a draw that went past page 1 rewinds the cursor to 1, so the next extension asks again for page 2, which the draw already consumed |
| MoviesState.FetchSimpleSimilarMovies | src/stores/movies.ts:200-221 | the similar listing replaces the similar movies (each with score 0 and no shared people), the totals and the cursor, or a failure sets the similar-movies message |
| MoviesState.ClearSearch | src/stores/movies.ts:224-231 | empties the search results and query, sets the cursor to 1 and the totals to 0, and clears the error |
| MoviesState.ClearRandomMovies | src/stores/movies.ts:233-238 | empties the drawn list, the selection and the saved filters, and clears the error |
| MoviesState.ClearSimilarMovies | src/stores/movies.ts:241-248 | empties the similar movies and the selected movie, sets the cursor to 1 and the totals to 0, and clears the error |
| MoviesState.ClearError | src/stores/movies.ts:251-253 | clears the error |
| MoviesState.FetchSimpleSimilarMoviesOutcome | src/stores/movies.ts:200-221 | every result is listed once, in order and undecorated, so `topSimilarMovies` and `moviesWithSharedCrew` are empty and the cursor is the requested page; a failure keeps the list and sets the fixed message |
| MoviesState.SearchMoviesOutcome | src/stores/movies.ts:110-127 | the query is remembered even on failure; on success the results and the cursor are the answered page's; on failure they stay; random mode is untouched |
| MoviesState.ClearRandomMoviesEndsSession | src/stores/movies.ts:233-238 | nothing is drawn, selected or applied afterwards and the error is cleared; a later extension is a no-op; the cursor is left where it was |
| MoviesState.ClearSearchResetsOnlySearch | src/stores/movies.ts:224-231 | the results and query are emptied, the cursor is 1, the totals are 0 and the error is cleared, while random mode and similar movies stay |
| MoviesState.ClearSimilarMoviesResetsOnlySimilar | src/stores/movies.ts:241-248 | both derived lists are empty, the selection is cleared, the cursor is 1, the totals are 0 and the error is cleared, while search and random mode stay |
| MoviesState.ClearErrorOnlyClearsError | src/stores/movies.ts:251-253 | the error is cleared and every other field stays |
| MoviesState.LoadingActionsSettle | src/stores/movies.ts:78-221 | every loading action ends with the loading flag down, on success and on failure |
| MoviesState.ListingFetchOutcome | src/stores/movies.ts:78-107 | the popular and now-playing fetches store their results on success, and on failure change only the error (to their own message) and the loading flag |
| MoviesStore.Store.constructor | src/stores/movies.ts:11-40 | a new store is in the initial state: empty lists, cursor 1, zero totals, nothing selected or saved, not loading, no error |
| MoviesStore.Store.FetchPopularMovies | src/stores/movies.ts:78-91 | the fields end as the popular-listing transition describes |
| MoviesStore.Store.FetchNowPlayingMovies | src/stores/movies.ts:94-107 | the fields end as the now-playing transition describes |
| MoviesStore.Store.SearchMovies | src/stores/movies.ts:110-127 | the fields end as the search transition describes |
| MoviesStore.Store.FetchRandomMovies | src/stores/movies.ts:154-174 | the fields end as the initial-draw transition describes |
| MoviesStore.Store.FetchMoreRandomMovies | src/stores/movies.ts:176-198 | the fields end as the extension transition describes, including the early return |
| MoviesStore.Store.FetchSimpleSimilarMovies | src/stores/movies.ts:200-221 | the fields end as the similar-movies transition describes |
| MoviesStore.Store.ClearSearch | src/stores/movies.ts:224-231 | the fields end as the clear-search transition describes |
| MoviesStore.Store.ClearRandomMovies | src/stores/movies.ts:233-238 | the fields end as the clear-random transition describes |
| MoviesStore.Store.ClearSimilarMovies | src/stores/movies.ts:241-248 | the fields end as the clear-similar transition describes |
| MoviesStore.Store.ClearError | src/stores/movies.ts:251-253 | the fields end as the clear-error transition describes |

## Left out

- The remote catalog and the HTTP client are not modelled. This covers the base URL, the API key check, the timeout and the thin wrappers for popular, now-playing, genre, search, details, similar and credits requests. Their answers are oracle parameters, and the discovery request is a function of its parameter map.
- `fetchMovieDetails`, `fetchGenres` and the `genres` and `currentMovie` fields are not modelled. They are single pass-through requests outside random discovery.
- `Math.random` is replaced by injected choices: `picks` for the shuffle and `pick` for the selected movie.
- TmdbApi.Shuffle: does not model the distribution of the comparator-based shuffle. That shuffle is not uniform and its result depends on the sort implementation, so the model states only that every outcome is a permutation and every permutation is possible.
- Popularity is an optional integer key instead of a float, so `NaN` and fractional differences in the comparator are not modelled. The rating bound and vote average are reals.
- JavaScript numbers are floating-point values. As a modelling choice, the model gives several of them the type `int`, which has no fractions and no overflow. What is lost:
  - fractional `minDuration` and `maxDuration` filter values (`src/services/tmdbApi.ts:112-113`);
  - fractional genre ids (`src/services/tmdbApi.ts:111`), and the rendering of ids at or above 10^21, which JavaScript writes in exponent notation when it joins them (`src/services/tmdbApi.ts:192`);
  - a fractional `similarity_score` (`src/services/tmdbApi.ts:88`), which `topSimilarMovies` compares with 0 (`src/stores/movies.ts:49`);
  - fractional, huge or non-finite page numbers and page counts, so page arithmetic such as `currentPage + 1` never rounds or overflows.
- A page answer is either a well-formed listing or a failure. A malformed payload, which would throw inside the scanner, counts as a failure. A missing `total_pages` is the total 0, which the stop test treats alike.
- The two sorts in the scanner work in place on the buffer. The model ranks and shuffles values, and `GetRandomMovies` reassigns a local sequence. In-place mutation and the aliasing of `byPopularity` and `shuffled` are not captured.
- The default arguments of `getRandomMovies` (20, 1, 3) are not modelled, because the store always passes all four.
- The `page = 1` defaults of `discoverMovies` (`src/services/tmdbApi.ts:173`), `searchMovies` (`src/stores/movies.ts:110`) and `fetchSimpleSimilarMovies` (`src/stores/movies.ts:200`) are not modelled, because every modelled call passes the page.
- The asynchronous execution of the actions is not modelled. Each action runs to completion with its request's answer in hand. Interleaving of concurrent actions and the loading flag's intermediate `true` as other code would observe it are not modelled.
- `console` logging is left out. The scanner logs its error before rethrowing it; the rethrow is its `Failure` result.
- MoviesState.HasAppliedFilters: is a boolean, while the getter returns a truthy value that can be a year string instead of `true`.
- The copy `{ ...filters }` of the saved filters is not modelled, because filter records are values here.

