/**
 * The movie store of the browser as values: its state record, its getters
 * and, for each action, the state the action leaves behind once its
 * request has been answered.
 *
 * The endpoints are oracles. The discovery endpoint is a `Catalog`; the
 * parameterless listings are the `FetchResult` they answer with; search
 * and similar-movies are functions from their arguments to that result.
 * The random index of the selected movie is the injected `pick`, and the
 * shuffle's randomness the injected `picks`.
 */
module MoviesState {
  import opened Wrappers
  import opened TmdbApi

  // ---------------------------------------------------------------------
  // State
  // ---------------------------------------------------------------------

  /**
   * The store's fields. `currentPage` is a single cursor shared by search,
   * similar movies and random mode.
   */
  datatype StoreState = StoreState(
    popularMovies: seq<Movie>,
    nowPlayingMovies: seq<Movie>,
    searchResults: seq<Movie>,
    searchQuery: string,
    currentPage: int,
    totalPages: int,
    totalResults: int,
    randomMovies: seq<Movie>,
    selectedRandomMovie: Option<Movie>,
    appliedFilters: Option<MovieFilters>,
    similarMovies: seq<SimilarMovie>,
    selectedMovie: Option<Movie>,
    isLoading: bool,
    error: Option<string>)

  /** The state a fresh store starts in. */
  function Initial(): StoreState
  {
    StoreState([], [], [], "", 1, 0, 0, [], None, None, [], None, false, None)
  }

  /** The text search endpoint: query and page to the page it answers with. */
  type SearchEndpoint = (string, int) -> FetchResult

  /** The similar-movies endpoint: movie id and page to the page it answers with. */
  type SimilarEndpoint = (int, int) -> FetchResult

  const POPULAR_ERROR := "Erro ao carregar filmes populares"
  const NOW_PLAYING_ERROR := "Erro ao carregar filmes em cartaz"
  const SEARCH_ERROR := "Erro ao buscar filmes"
  const RANDOM_ERROR := "Erro ao buscar filmes aleatórios"
  const MORE_ERROR := "Erro ao buscar mais filmes"
  const SIMILAR_ERROR := "Erro ao buscar filmes similares"

  /** The initial random draw: 21 movies from at most 3 pages, from page 1. */
  const RANDOM_COUNT := 21
  const RANDOM_START_PAGE := 1
  const RANDOM_PAGES := 3
  /** The cursor after the initial draw, whatever page the scan reached. */
  const RANDOM_CURSOR := 3
  /** Each extension: 10 more movies from at most 2 pages after the cursor. */
  const MORE_COUNT := 10
  const MORE_PAGES := 2

  // ---------------------------------------------------------------------
  // Getters
  // ---------------------------------------------------------------------

  predicate HasMovies(st: StoreState)
  {
    |st.popularMovies| > 0 || |st.nowPlayingMovies| > 0
  }

  predicate HasSearchResults(st: StoreState)
  {
    |st.searchResults| > 0
  }

  predicate HasSimilarMovies(st: StoreState)
  {
    |st.similarMovies| > 0
  }

  predicate HasRandomMovies(st: StoreState)
  {
    |st.randomMovies| > 0
  }

  /** The elements of `s` that satisfy `p`, in their order and with their multiplicities. */
  function Filter<T(==, !new)>(p: T -> bool, s: seq<T>): (r: seq<T>)
    ensures |r| <= |s|
    ensures forall x :: multiset(r)[x] == if p(x) then multiset(s)[x] else 0
  {
    if s == [] then []
    else
      assert s == [s[0]] + s[1..];
      if p(s[0]) then [s[0]] + Filter(p, s[1..]) else Filter(p, s[1..])
  }

  /** Filtering keeps order: filtering a concatenation concatenates the filtered parts. */
  lemma {:induction false} FilterConcat<T(!new)>(p: T -> bool, a: seq<T>, b: seq<T>)
    ensures Filter(p, a + b) == Filter(p, a) + Filter(p, b)
    decreases |a|
  {
    if a == [] {
      assert a + b == b;
    } else {
      assert (a + b)[0] == a[0];
      assert (a + b)[1..] == a[1..] + b;
      FilterConcat(p, a[1..], b);
      if p(a[0]) {
        assert [a[0]] + (Filter(p, a[1..]) + Filter(p, b)) == ([a[0]] + Filter(p, a[1..])) + Filter(p, b);
      }
    }
  }

  /** Nothing survives a filter that no element satisfies. */
  lemma {:induction false} FilterNothing<T(!new)>(p: T -> bool, s: seq<T>)
    requires forall i :: 0 <= i < |s| ==> !p(s[i])
    ensures Filter(p, s) == []
  {
    if s != [] {
      FilterNothing(p, s[1..]);
    }
  }

  /** A similar movie with a positive score; a missing score counts as 0. */
  predicate IsTopSimilar(m: SimilarMovie)
  {
    m.similarityScore.Some? && m.similarityScore.value > 0
  }

  /** A similar movie that shares at least one cast or crew member. */
  predicate SharesPeople(m: SimilarMovie)
  {
    (m.sharedCast.Some? && |m.sharedCast.value| > 0) || (m.sharedCrew.Some? && |m.sharedCrew.value| > 0)
  }

  function TopSimilarMovies(st: StoreState): seq<SimilarMovie>
  {
    Filter(IsTopSimilar, st.similarMovies)
  }

  function MoviesWithSharedCrew(st: StoreState): seq<SimilarMovie>
  {
    Filter(SharesPeople, st.similarMovies)
  }

  /** Whether a filter record constrains anything beyond the defaults. */
  predicate Constrains(f: MovieFilters)
  {
    f.yearFrom != "" || f.yearTo != "" || |f.genres| > 0
    || f.minDuration.Some? || f.maxDuration.Some? || f.minRating.Some?
  }

  /** Saved filters that the user chose; a dynamic random draw has none. */
  predicate HasAppliedFilters(st: StoreState)
  {
    match st.appliedFilters
    case None => false
    case Some(f) => !f.isDynamicRandom && Constrains(f)
  }

  /**
   * A filter record constrains something exactly when its discovery query
   * carries a parameter beyond the fixed ones.
   */
  lemma ConstrainsIffExtraParams(filters: MovieFilters, page: int)
    ensures Constrains(filters) <==> DiscoverParams(filters, page).Keys != FixedKeys
  {
    var keys := DiscoverParams(filters, page).Keys;
    DiscoverFixedParams(filters, page);
    DiscoverReleaseDates(filters, page);
    DiscoverGenres(filters, page);
    DiscoverRuntime(filters, page);
    DiscoverRating(filters, page);
    if !Constrains(filters) {
      forall k | k in keys
        ensures k in FixedKeys
      {
        match k
        case ReleaseDateGte =>
        case ReleaseDateLte =>
        case WithGenres =>
        case RuntimeGte =>
        case RuntimeLte =>
        case VoteAverageGte =>
        case VoteCountGte =>
        case _ =>
      }
      assert keys == FixedKeys;
    } else if filters.yearFrom != "" {
      assert ReleaseDateGte in keys - FixedKeys;
    } else if filters.yearTo != "" {
      assert ReleaseDateLte in keys - FixedKeys;
    } else if |filters.genres| > 0 {
      assert WithGenres in keys - FixedKeys;
    } else if filters.minDuration.Some? {
      assert RuntimeGte in keys - FixedKeys;
    } else if filters.maxDuration.Some? {
      assert RuntimeLte in keys - FixedKeys;
    } else {
      assert VoteAverageGte in keys - FixedKeys;
    }
  }

  /**
   * The saved filters count as applied exactly when they are the user's
   * (not a dynamic draw) and their discovery query is narrower than the
   * unfiltered one.
   */
  lemma HasAppliedFiltersIffNarrowerQuery(st: StoreState, page: int)
    ensures HasAppliedFilters(st) <==>
      st.appliedFilters.Some? && !st.appliedFilters.value.isDynamicRandom
      && DiscoverParams(st.appliedFilters.value, page).Keys != FixedKeys
  {
    if st.appliedFilters.Some? {
      ConstrainsIffExtraParams(st.appliedFilters.value, page);
    }
  }

  // ---------------------------------------------------------------------
  // Actions
  // ---------------------------------------------------------------------

  function FetchPopularMovies(st: StoreState, response: FetchResult): StoreState
  {
    match response
    case Success(listing) => st.(popularMovies := listing.results, error := None, isLoading := false)
    case Failure(_) => st.(error := Some(POPULAR_ERROR), isLoading := false)
  }

  function FetchNowPlayingMovies(st: StoreState, response: FetchResult): StoreState
  {
    match response
    case Success(listing) => st.(nowPlayingMovies := listing.results, error := None, isLoading := false)
    case Failure(_) => st.(error := Some(NOW_PLAYING_ERROR), isLoading := false)
  }

  function SearchMovies(st: StoreState, search: SearchEndpoint, query: string, page: int): StoreState
  {
    var started := st.(searchQuery := query);
    match search(query, page)
    case Success(listing) =>
      started.(searchResults := listing.results, currentPage := listing.page,
        totalPages := listing.totalPages, totalResults := listing.totalResults,
        error := None, isLoading := false)
    case Failure(_) => started.(error := Some(SEARCH_ERROR), isLoading := false)
  }

  /** `Math.floor(Math.random() * len)`: the pick when it is in range, else 0. */
  function PickIndex(pick: nat, len: nat): (k: nat)
    requires len > 0
    ensures k < len
  {
    if pick < len then pick else 0
  }

  /** `getRandomMovies(filters, count, startPage, pagesToScan)` as the store sees it. */
  type Draw = (MovieFilters, int, int, int) -> Result<seq<Movie>, FetchError>

  /** Where the scanner reads the pages of each filter record from. */
  type PageSources = MovieFilters -> PageSource

  /** The discovery endpoint of `catalog`, page by page for each filter record. */
  function DiscoverySources(catalog: Catalog): PageSources
  {
    filters => DiscoveryPages(catalog, filters)
  }

  /** The random page scanner over `sources`, its shuffle driven by `picks`. */
  function Scanner(sources: PageSources, picks: seq<nat>): Draw
  {
    (filters, count, startPage, pagesToScan) => SampleOf(sources(filters), count, startPage, pagesToScan, picks)
  }

  /** Over the discovery endpoint, the scanner is the client's `getRandomMovies`. */
  lemma ScannerIsRandomMovies(catalog: Catalog, picks: seq<nat>, filters: MovieFilters, count: int, startPage: int, pagesToScan: int)
    ensures Scanner(DiscoverySources(catalog), picks)(filters, count, startPage, pagesToScan)
      == RandomMovies(catalog, filters, count, startPage, pagesToScan, picks)
  {
  }

  /** The filters are saved before the request, so even when it fails. */
  function FetchRandomMovies(st: StoreState, draw: Draw, filters: MovieFilters, pick: nat): StoreState
  {
    var started := st.(appliedFilters := Some(filters));
    match draw(filters, RANDOM_COUNT, RANDOM_START_PAGE, RANDOM_PAGES)
    case Success(movies) =>
      started.(randomMovies := movies,
        selectedRandomMovie := if |movies| > 0 then Some(movies[PickIndex(pick, |movies|)]) else st.selectedRandomMovie,
        currentPage := RANDOM_CURSOR, error := None, isLoading := false)
    case Failure(_) => started.(error := Some(RANDOM_ERROR), isLoading := false)
  }

  /** The scan an extension of `st` runs: two pages after the cursor. */
  function ExtensionScan(st: StoreState, sources: PageSources): Result<Scan, FetchError>
    requires st.appliedFilters.Some?
  {
    ScanPages(sources(st.appliedFilters.value), st.currentPage + 1, MORE_PAGES)
  }

  /** Without saved filters the action returns at once and changes nothing. */
  function FetchMoreRandomMovies(st: StoreState, draw: Draw): StoreState
  {
    match st.appliedFilters
    case None => st
    case Some(filters) =>
      var nextStartPage := st.currentPage + 1;
      Extended(st, nextStartPage, draw(filters, MORE_COUNT, nextStartPage, MORE_PAGES))
  }

  /** The state an extension from `nextStartPage` leaves once its draw has answered `more`. */
  function Extended(st: StoreState, nextStartPage: int, more: Result<seq<Movie>, FetchError>): StoreState
  {
    match more
    case Success(movies) =>
      st.(randomMovies := st.randomMovies + movies, currentPage := nextStartPage + 1,
        error := None, isLoading := false)
    case Failure(_) => st.(error := Some(MORE_ERROR), isLoading := false)
  }

  /** A listed movie with a zero score and no shared cast or crew. */
  function Undecorated(m: Movie): SimilarMovie
  {
    SimilarMovie(m, Some(0), Some([]), Some([]))
  }

  function FetchSimpleSimilarMovies(st: StoreState, similar: SimilarEndpoint, movieId: int, page: int): StoreState
  {
    match similar(movieId, page)
    case Success(listing) =>
      st.(similarMovies := seq(|listing.results|, i requires 0 <= i < |listing.results| => Undecorated(listing.results[i])),
        totalPages := listing.totalPages, totalResults := listing.totalResults,
        currentPage := page, error := None, isLoading := false)
    case Failure(_) => st.(error := Some(SIMILAR_ERROR), isLoading := false)
  }

  function ClearSearch(st: StoreState): StoreState
  {
    st.(searchResults := [], searchQuery := "", currentPage := 1, totalPages := 0, totalResults := 0, error := None)
  }

  function ClearRandomMovies(st: StoreState): StoreState
  {
    st.(randomMovies := [], selectedRandomMovie := None, appliedFilters := None, error := None)
  }

  function ClearSimilarMovies(st: StoreState): StoreState
  {
    st.(similarMovies := [], selectedMovie := None, currentPage := 1, totalPages := 0, totalResults := 0, error := None)
  }

  function ClearError(st: StoreState): StoreState
  {
    st.(error := None)
  }

  // ---------------------------------------------------------------------
  // Random mode
  // ---------------------------------------------------------------------

  /**
   * Whatever the draw returns, the initial request saves the filters and
   * settles. On success the list is the drawn one, the cursor is 3 and a
   * non-empty draw selects one of its own movies (an empty one keeps the
   * previous selection); on failure the list, the selection and the
   * cursor are kept and the error is the fixed message.
   */
  lemma FetchRandomMoviesSavesFiltersAndSelects(st: StoreState, draw: Draw, filters: MovieFilters, pick: nat)
    ensures var after := FetchRandomMovies(st, draw, filters, pick);
      var drawn := draw(filters, RANDOM_COUNT, RANDOM_START_PAGE, RANDOM_PAGES);
      && after.appliedFilters == Some(filters)
      && !after.isLoading
      && (drawn.Success? ==>
            && after.randomMovies == drawn.value
            && after.currentPage == RANDOM_CURSOR
            && after.error == None
            && (drawn.value != [] ==> after.selectedRandomMovie.Some? && after.selectedRandomMovie.value in after.randomMovies)
            && (drawn.value == [] ==> after.selectedRandomMovie == st.selectedRandomMovie))
      && (drawn.Failure? ==>
            && after.randomMovies == st.randomMovies
            && after.selectedRandomMovie == st.selectedRandomMovie
            && after.currentPage == st.currentPage
            && after.error == Some(RANDOM_ERROR))
  {
  }

  /**
   * With the page scanner as the draw, the initial request fails exactly
   * when a page fetch fails; on success it asked only for pages 1 to 3 and
   * holds at most 21 movies of their results, exactly 21 when they have
   * that many.
   */
  lemma FetchRandomMoviesOutcome(st: StoreState, sources: PageSources, filters: MovieFilters, picks: seq<nat>, pick: nat)
    ensures var after := FetchRandomMovies(st, Scanner(sources, picks), filters, pick);
      var scan := ScanPages(sources(filters), RANDOM_START_PAGE, RANDOM_PAGES);
      && (after.error == None <==> scan.Success?)
      && (scan.Success? ==>
            && (forall p :: p in scan.value.requested ==> RANDOM_START_PAGE <= p < RANDOM_START_PAGE + RANDOM_PAGES)
            && multiset(after.randomMovies) <= multiset(scan.value.collected)
            && |after.randomMovies| == (if |scan.value.collected| < RANDOM_COUNT then |scan.value.collected| else RANDOM_COUNT))
      && (scan.Failure? ==> after.randomMovies == st.randomMovies)
  {
    SampleScansWindow(sources(filters), RANDOM_COUNT, RANDOM_START_PAGE, RANDOM_PAGES, picks);
  }

  /** An extension without saved filters is a no-op: even the error and the loading flag stay. */
  lemma FetchMoreWithoutFiltersChangesNothing(st: StoreState, draw: Draw)
    requires st.appliedFilters == None
    ensures FetchMoreRandomMovies(st, draw) == st
  {
  }

  /**
   * Whatever the draw returns, an extension asks it for 10 movies from at
   * most 2 pages after the cursor. On success the old list is a prefix of
   * the new one, followed by the drawn movies, and the cursor moves by
   * exactly 2; on failure the list and the cursor are kept and the error
   * is the fixed message. The filters stay.
   */
  lemma FetchMoreRandomMoviesAppends(st: StoreState, draw: Draw)
    requires st.appliedFilters.Some?
    ensures var after := FetchMoreRandomMovies(st, draw);
      var drawn := draw(st.appliedFilters.value, MORE_COUNT, st.currentPage + 1, MORE_PAGES);
      && after.appliedFilters == st.appliedFilters
      && !after.isLoading
      && (drawn.Success? ==>
            && after.randomMovies[..|st.randomMovies|] == st.randomMovies
            && after.randomMovies[|st.randomMovies|..] == drawn.value
            && after.currentPage == st.currentPage + 2
            && after.error == None)
      && (drawn.Failure? ==>
            && after.randomMovies == st.randomMovies
            && after.currentPage == st.currentPage
            && after.error == Some(MORE_ERROR))
  {
    var drawn := draw(st.appliedFilters.value, MORE_COUNT, st.currentPage + 1, MORE_PAGES);
    if drawn.Success? {
      var after := FetchMoreRandomMovies(st, draw);
      assert after.randomMovies == st.randomMovies + drawn.value;
    }
  }

  /**
   * With the page scanner as the draw, an extension fails exactly when its
   * scan does, and a successful one moves the cursor by 2 whatever page the
   * scan reached.
   */
  lemma FetchMoreRandomMoviesScansAfterCursor(st: StoreState, sources: PageSources, picks: seq<nat>)
    requires st.appliedFilters.Some?
    ensures FetchMoreRandomMovies(st, Scanner(sources, picks)).error == None <==> ExtensionScan(st, sources).Success?
    ensures ExtensionScan(st, sources).Success? ==>
      FetchMoreRandomMovies(st, Scanner(sources, picks)).currentPage == st.currentPage + 2
  {
    var drawn := SampleOf(sources(st.appliedFilters.value), MORE_COUNT, st.currentPage + 1, MORE_PAGES, picks);
    ScannerExtends(st, sources, picks);
    ExtendedOutcome(st, st.currentPage + 1, drawn);
  }

  /** With the page scanner as the draw, an extension settles on the sample of its extension scan. */
  lemma ScannerExtends(st: StoreState, sources: PageSources, picks: seq<nat>)
    requires st.appliedFilters.Some?
    ensures var drawn := SampleOf(sources(st.appliedFilters.value), MORE_COUNT, st.currentPage + 1, MORE_PAGES, picks);
      && FetchMoreRandomMovies(st, Scanner(sources, picks)) == Extended(st, st.currentPage + 1, drawn)
      && (drawn.Success? <==> ExtensionScan(st, sources).Success?)
  {
    var drawn := SampleOf(sources(st.appliedFilters.value), MORE_COUNT, st.currentPage + 1, MORE_PAGES, picks);
    assert Scanner(sources, picks)(st.appliedFilters.value, MORE_COUNT, st.currentPage + 1, MORE_PAGES) == drawn;
  }

  /** An extension clears the error exactly when its draw succeeds, and then moves the cursor past both pages. */
  lemma ExtendedOutcome(st: StoreState, nextStartPage: int, more: Result<seq<Movie>, FetchError>)
    ensures Extended(st, nextStartPage, more).error == None <==> more.Success?
    ensures more.Success? ==> Extended(st, nextStartPage, more).currentPage == nextStartPage + 1
  {
  }

  /** A successful extension scan asks only for the two pages after the cursor. */
  lemma ExtensionScanWindow(st: StoreState, sources: PageSources)
    requires st.appliedFilters.Some? && ExtensionScan(st, sources).Success?
    ensures forall p :: p in ExtensionScan(st, sources).value.requested ==> st.currentPage < p <= st.currentPage + MORE_PAGES
  {
    ScanRequestsConsecutivePages(sources(st.appliedFilters.value), st.currentPage + 1, MORE_PAGES);
  }

  /**
   * With the page scanner as the draw, a successful extension keeps the old
   * list as a prefix and appends at most 10 movies of the scanned pages'
   * results.
   */
  lemma FetchMoreRandomMoviesAddsAtMostTen(st: StoreState, sources: PageSources, picks: seq<nat>)
    requires st.appliedFilters.Some? && ExtensionScan(st, sources).Success?
    ensures var after := FetchMoreRandomMovies(st, Scanner(sources, picks));
      && after.randomMovies[..|st.randomMovies|] == st.randomMovies
      && |st.randomMovies| <= |after.randomMovies| <= |st.randomMovies| + MORE_COUNT
      && multiset(after.randomMovies[|st.randomMovies|..]) <= multiset(ExtensionScan(st, sources).value.collected)
  {
    var filters := st.appliedFilters.value;
    var drawn := SampleOf(sources(filters), MORE_COUNT, st.currentPage + 1, MORE_PAGES, picks);
    assert Scanner(sources, picks)(filters, MORE_COUNT, st.currentPage + 1, MORE_PAGES) == drawn;
    FetchMoreRandomMoviesAppends(st, Scanner(sources, picks));
    SampleScansWindow(sources(filters), MORE_COUNT, st.currentPage + 1, MORE_PAGES, picks);
  }

  /**
   * In one continuous session the pages never overlap: after a successful
   * initial draw the next extension scans from page 4, and whatever it asks
   * for lies outside the pages 1 to 3 the draw asked for.
   */
  lemma InitialDrawAndExtensionScanDisjointPages(st: StoreState, sources: PageSources, filters: MovieFilters, picks: seq<nat>, pick: nat)
    requires ScanPages(sources(filters), RANDOM_START_PAGE, RANDOM_PAGES).Success?
    ensures var started := FetchRandomMovies(st, Scanner(sources, picks), filters, pick);
      var first := ScanPages(sources(filters), RANDOM_START_PAGE, RANDOM_PAGES);
      && started.appliedFilters == Some(filters)
      && ExtensionScan(started, sources) == ScanPages(sources(filters), RANDOM_CURSOR + 1, MORE_PAGES)
      && (ExtensionScan(started, sources).Success? ==>
            forall p :: p in ExtensionScan(started, sources).value.requested ==> p !in first.value.requested)
  {
    var started := FetchRandomMovies(st, Scanner(sources, picks), filters, pick);
    FetchRandomMoviesOutcome(st, sources, filters, picks, pick);
    FetchRandomMoviesSavesFiltersAndSelects(st, Scanner(sources, picks), filters, pick);
    if ExtensionScan(started, sources).Success? {
      ScanRequestsConsecutivePages(sources(filters), RANDOM_CURSOR + 1, MORE_PAGES);
    }
  }

  /**
   * Two extensions in a row ask for disjoint pages: the second starts
   * right after the window of the first.
   */
  lemma ConsecutiveExtensionsScanDisjointPages(st: StoreState, sources: PageSources, picks: seq<nat>)
    requires st.appliedFilters.Some? && ExtensionScan(st, sources).Success?
    ensures FetchMoreRandomMovies(st, Scanner(sources, picks)).appliedFilters == st.appliedFilters
    ensures FetchMoreRandomMovies(st, Scanner(sources, picks)).currentPage == st.currentPage + 2
    ensures var next := FetchMoreRandomMovies(st, Scanner(sources, picks));
      ExtensionScan(next, sources).Success? ==>
        forall p :: p in ExtensionScan(next, sources).value.requested ==> p !in ExtensionScan(st, sources).value.requested
  {
    var pages := sources(st.appliedFilters.value);
    var next := FetchMoreRandomMovies(st, Scanner(sources, picks));
    FetchMoreRandomMoviesScansAfterCursor(st, sources, picks);
    ExtensionScanWindow(st, sources);
    FetchMoreRandomMoviesAppends(st, Scanner(sources, picks));
    assert next.appliedFilters == st.appliedFilters && next.currentPage == st.currentPage + 2;
    assert ExtensionScan(next, sources) == ScanPages(pages, st.currentPage + 2 + 1, MORE_PAGES);
    if ExtensionScan(next, sources).Success? {
      ScanRequestsConsecutivePages(pages, st.currentPage + 2 + 1, MORE_PAGES);
    }
  }

  /**
   * The shared cursor breaks the session's page order: clearing the search
   * after a draw rewinds the cursor to 1, so the next extension asks for
   * page 2 again, which the draw already consumed whenever page 1 was not
   * the last.
   */
  lemma ClearSearchRescansConsumedPage(st: StoreState, sources: PageSources, filters: MovieFilters, picks: seq<nat>, pick: nat)
    requires sources(filters)(1).Success?
    requires !ReachedLastPage(1, sources(filters)(1).value)
    requires ScanPages(sources(filters), 2, MORE_PAGES).Success?
    ensures var rewound := ClearSearch(FetchRandomMovies(st, Scanner(sources, picks), filters, pick));
      var first := ScanPages(sources(filters), RANDOM_START_PAGE, RANDOM_PAGES);
      && first.Success? && 2 in first.value.requested
      && rewound.currentPage == 1
      && rewound.appliedFilters == Some(filters)
      && ExtensionScan(rewound, sources).Success?
      && 2 in ExtensionScan(rewound, sources).value.requested
  {
    var pages := sources(filters);
    ScanRequestsConsecutivePages(pages, 2, MORE_PAGES);
    var rest := ScanPages(pages, 2, MORE_PAGES).value;
    assert ScanPages(pages, 1, RANDOM_PAGES) == Prepend(1, pages(1).value.results, ScanPages(pages, 2, MORE_PAGES));
    assert ScanPages(pages, 1, RANDOM_PAGES).value.requested == [1] + rest.requested;
    assert rest.requested[0] == 2;
  }

  // ---------------------------------------------------------------------
  // Similar movies, search and the clear actions
  // ---------------------------------------------------------------------

  /**
   * The simple similar-movies fetch lists every result undecorated, so
   * neither derived list holds anything afterwards; the cursor moves to
   * the requested page. A failure keeps the list.
   */
  lemma FetchSimpleSimilarMoviesOutcome(st: StoreState, similar: SimilarEndpoint, movieId: int, page: int)
    ensures var after := FetchSimpleSimilarMovies(st, similar, movieId, page);
      && !after.isLoading
      && (similar(movieId, page).Success? ==>
            var results := similar(movieId, page).value.results;
            && |after.similarMovies| == |results|
            && (forall i :: 0 <= i < |results| ==> after.similarMovies[i].movie == results[i])
            && TopSimilarMovies(after) == []
            && MoviesWithSharedCrew(after) == []
            && after.currentPage == page
            && after.error == None)
      && (similar(movieId, page).Failure? ==>
            after.similarMovies == st.similarMovies && after.currentPage == st.currentPage
            && after.error == Some(SIMILAR_ERROR))
  {
    var after := FetchSimpleSimilarMovies(st, similar, movieId, page);
    if similar(movieId, page).Success? {
      FilterNothing(IsTopSimilar, after.similarMovies);
      FilterNothing(SharesPeople, after.similarMovies);
    }
  }

  /** A search remembers its query even when it fails; on success the cursor is the answered page. */
  lemma SearchMoviesOutcome(st: StoreState, search: SearchEndpoint, query: string, page: int)
    ensures var after := SearchMovies(st, search, query, page);
      && after.searchQuery == query
      && !after.isLoading
      && (search(query, page).Success? ==>
            after.searchResults == search(query, page).value.results
            && after.currentPage == search(query, page).value.page
            && HasSearchResults(after) == (search(query, page).value.results != [])
            && after.error == None)
      && (search(query, page).Failure? ==>
            after.searchResults == st.searchResults && after.currentPage == st.currentPage
            && after.error == Some(SEARCH_ERROR))
      && after.randomMovies == st.randomMovies && after.appliedFilters == st.appliedFilters
  {
  }

  /**
   * Clearing random mode ends the session: nothing is drawn or selected,
   * no filters count as applied and a later extension is a no-op; the
   * shared cursor is left where it was.
   */
  lemma ClearRandomMoviesEndsSession(st: StoreState, draw: Draw)
    ensures var cleared := ClearRandomMovies(st);
      && !HasRandomMovies(cleared)
      && cleared.selectedRandomMovie == None
      && !HasAppliedFilters(cleared)
      && cleared.error == None
      && cleared.currentPage == st.currentPage
      && FetchMoreRandomMovies(cleared, draw) == cleared
  {
  }

  /**
   * Clearing the search resets the shared cursor and totals and empties
   * the results, but leaves random mode and similar movies alone.
   */
  lemma ClearSearchResetsOnlySearch(st: StoreState)
    ensures var cleared := ClearSearch(st);
      && !HasSearchResults(cleared) && cleared.searchQuery == ""
      && cleared.currentPage == 1 && cleared.totalPages == 0 && cleared.totalResults == 0
      && cleared.error == None
      && cleared.randomMovies == st.randomMovies
      && cleared.selectedRandomMovie == st.selectedRandomMovie
      && cleared.appliedFilters == st.appliedFilters
      && cleared.similarMovies == st.similarMovies
  {
  }

  /**
   * Clearing similar movies empties both derived lists, resets the shared
   * cursor and totals, and leaves search and random mode alone.
   */
  lemma ClearSimilarMoviesResetsOnlySimilar(st: StoreState)
    ensures var cleared := ClearSimilarMovies(st);
      && !HasSimilarMovies(cleared)
      && TopSimilarMovies(cleared) == [] && MoviesWithSharedCrew(cleared) == []
      && cleared.selectedMovie == None
      && cleared.currentPage == 1 && cleared.totalPages == 0 && cleared.totalResults == 0
      && cleared.error == None
      && cleared.searchResults == st.searchResults
      && cleared.randomMovies == st.randomMovies
      && cleared.appliedFilters == st.appliedFilters
  {
    FilterNothing(IsTopSimilar, []);
    FilterNothing(SharesPeople, []);
  }

  /** Clearing the error touches nothing else. */
  lemma ClearErrorOnlyClearsError(st: StoreState)
    ensures ClearError(st).error == None
    ensures ClearError(st).(error := st.error) == st
  {
  }

  /** Every loading action ends with the loading flag down, success or failure. */
  lemma LoadingActionsSettle(st: StoreState, draw: Draw, search: SearchEndpoint, similar: SimilarEndpoint,
                             response: FetchResult, filters: MovieFilters, query: string, movieId: int, page: int, pick: nat)
    ensures !FetchPopularMovies(st, response).isLoading
    ensures !FetchNowPlayingMovies(st, response).isLoading
    ensures !SearchMovies(st, search, query, page).isLoading
    ensures !FetchRandomMovies(st, draw, filters, pick).isLoading
    ensures !FetchSimpleSimilarMovies(st, similar, movieId, page).isLoading
    ensures st.appliedFilters.Some? ==> !FetchMoreRandomMovies(st, draw).isLoading
  {
  }

  /** A listing fetch stores its results on success and reports its own message on failure. */
  lemma ListingFetchOutcome(st: StoreState, response: FetchResult)
    ensures response.Success? ==>
      && FetchPopularMovies(st, response).popularMovies == response.value.results
      && FetchNowPlayingMovies(st, response).nowPlayingMovies == response.value.results
      && HasMovies(FetchPopularMovies(st, response)) == (response.value.results != [] || st.nowPlayingMovies != [])
    ensures response.Failure? ==>
      && FetchPopularMovies(st, response) == st.(error := Some(POPULAR_ERROR), isLoading := false)
      && FetchNowPlayingMovies(st, response) == st.(error := Some(NOW_PLAYING_ERROR), isLoading := false)
  {
  }
}
