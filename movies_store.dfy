/**
 * The movie store as an object: the fields its actions update in place,
 * and one method per action. Each method makes the action's assignments
 * in the action's order and is proved to leave exactly the state that the
 * matching transition of `MoviesState` describes, so every property proved
 * there holds of the object. The random actions call the page scanner
 * through a `Draw`; `MoviesState.Scanner` is the one the client provides,
 * implemented by `TmdbApi.GetRandomMovies`.
 */
module MoviesStore {
  import opened Wrappers
  import opened TmdbApi
  import MoviesState

  class Store {
    var popularMovies: seq<Movie>
    var nowPlayingMovies: seq<Movie>
    var searchResults: seq<Movie>
    var searchQuery: string
    var currentPage: int
    var totalPages: int
    var totalResults: int
    var randomMovies: seq<Movie>
    var selectedRandomMovie: Option<Movie>
    var appliedFilters: Option<MovieFilters>
    var similarMovies: seq<SimilarMovie>
    var selectedMovie: Option<Movie>
    var isLoading: bool
    var error: Option<string>

    /** The store's fields as one value. */
    function State(): MoviesState.StoreState
      reads this
    {
      MoviesState.StoreState(popularMovies, nowPlayingMovies, searchResults, searchQuery,
        currentPage, totalPages, totalResults, randomMovies, selectedRandomMovie,
        appliedFilters, similarMovies, selectedMovie, isLoading, error)
    }

    /** Whether the fields hold exactly the state `s`. */
    ghost predicate Is(s: MoviesState.StoreState)
      reads this
    {
      && popularMovies == s.popularMovies
      && nowPlayingMovies == s.nowPlayingMovies
      && searchResults == s.searchResults
      && searchQuery == s.searchQuery
      && currentPage == s.currentPage
      && totalPages == s.totalPages
      && totalResults == s.totalResults
      && randomMovies == s.randomMovies
      && selectedRandomMovie == s.selectedRandomMovie
      && appliedFilters == s.appliedFilters
      && similarMovies == s.similarMovies
      && selectedMovie == s.selectedMovie
      && isLoading == s.isLoading
      && error == s.error
    }

    constructor()
      ensures State() == MoviesState.Initial()
    {
      popularMovies := [];
      nowPlayingMovies := [];
      searchResults := [];
      searchQuery := "";
      currentPage := 1;
      totalPages := 0;
      totalResults := 0;
      randomMovies := [];
      selectedRandomMovie := None;
      appliedFilters := None;
      similarMovies := [];
      selectedMovie := None;
      isLoading := false;
      error := None;
    }

    method FetchPopularMovies(response: FetchResult)
      modifies this
      ensures State() == MoviesState.FetchPopularMovies(old(State()), response)
    {
      ghost var target := MoviesState.FetchPopularMovies(State(), response);
      isLoading := true;
      error := None;
      if response.Success? {
        popularMovies := response.value.results;
      } else {
        error := Some(MoviesState.POPULAR_ERROR);
      }
      isLoading := false;
      assert Is(target);
    }

    method FetchNowPlayingMovies(response: FetchResult)
      modifies this
      ensures State() == MoviesState.FetchNowPlayingMovies(old(State()), response)
    {
      ghost var target := MoviesState.FetchNowPlayingMovies(State(), response);
      isLoading := true;
      error := None;
      if response.Success? {
        nowPlayingMovies := response.value.results;
      } else {
        error := Some(MoviesState.NOW_PLAYING_ERROR);
      }
      isLoading := false;
      assert Is(target);
    }

    method SearchMovies(search: MoviesState.SearchEndpoint, query: string, page: int)
      modifies this
      ensures State() == MoviesState.SearchMovies(old(State()), search, query, page)
    {
      ghost var target := MoviesState.SearchMovies(State(), search, query, page);
      isLoading := true;
      error := None;
      searchQuery := query;
      var response := search(query, page);
      if response.Success? {
        searchResults := response.value.results;
        currentPage := response.value.page;
        totalPages := response.value.totalPages;
        totalResults := response.value.totalResults;
        isLoading := false;
        assert Is(target);
      } else {
        error := Some(MoviesState.SEARCH_ERROR);
        isLoading := false;
        assert Is(target);
      }
    }

    /**
     * Saves the filters, draws up to 21 movies from the first three
     * discovery pages and selects one of them at random.
     */
    method FetchRandomMovies(draw: MoviesState.Draw, filters: MovieFilters, pick: nat)
      modifies this
      ensures State() == MoviesState.FetchRandomMovies(old(State()), draw, filters, pick)
    {
      ghost var target := MoviesState.FetchRandomMovies(State(), draw, filters, pick);
      isLoading := true;
      error := None;
      appliedFilters := Some(filters);
      var movies := draw(filters, MoviesState.RANDOM_COUNT, MoviesState.RANDOM_START_PAGE, MoviesState.RANDOM_PAGES);
      if movies.Success? {
        randomMovies := movies.value;
        if |movies.value| > 0 {
          selectedRandomMovie := Some(movies.value[MoviesState.PickIndex(pick, |movies.value|)]);
        }
        currentPage := MoviesState.RANDOM_CURSOR;
        isLoading := false;
        assert Is(target);
      } else {
        error := Some(MoviesState.RANDOM_ERROR);
        isLoading := false;
        assert Is(target);
      }
    }

    /**
     * Appends up to 10 movies from the two pages after the cursor and
     * moves the cursor past them; without saved filters it returns at once.
     */
    method FetchMoreRandomMovies(draw: MoviesState.Draw)
      modifies this
      ensures State() == MoviesState.FetchMoreRandomMovies(old(State()), draw)
    {
      if appliedFilters.None? {
        return;
      }
      ghost var target := MoviesState.FetchMoreRandomMovies(State(), draw);
      isLoading := true;
      error := None;
      var nextStartPage := currentPage + 1;
      var more := draw(appliedFilters.value, MoviesState.MORE_COUNT, nextStartPage, MoviesState.MORE_PAGES);
      if more.Success? {
        randomMovies := randomMovies + more.value;
        currentPage := nextStartPage + 1;
      } else {
        error := Some(MoviesState.MORE_ERROR);
      }
      isLoading := false;
      assert Is(target);
    }

    method FetchSimpleSimilarMovies(similar: MoviesState.SimilarEndpoint, movieId: int, page: int)
      modifies this
      ensures State() == MoviesState.FetchSimpleSimilarMovies(old(State()), similar, movieId, page)
    {
      ghost var target := MoviesState.FetchSimpleSimilarMovies(State(), similar, movieId, page);
      isLoading := true;
      error := None;
      var response := similar(movieId, page);
      if response.Success? {
        var results := response.value.results;
        similarMovies := seq(|results|, i requires 0 <= i < |results| => MoviesState.Undecorated(results[i]));
        totalPages := response.value.totalPages;
        totalResults := response.value.totalResults;
        currentPage := page;
        isLoading := false;
        assert Is(target);
      } else {
        error := Some(MoviesState.SIMILAR_ERROR);
        isLoading := false;
        assert Is(target);
      }
    }

    method ClearSearch()
      modifies this
      ensures State() == MoviesState.ClearSearch(old(State()))
    {
      ghost var target := MoviesState.ClearSearch(State());
      searchResults := [];
      searchQuery := "";
      currentPage := 1;
      totalPages := 0;
      totalResults := 0;
      error := None;
      assert Is(target);
    }

    method ClearRandomMovies()
      modifies this
      ensures State() == MoviesState.ClearRandomMovies(old(State()))
    {
      ghost var target := MoviesState.ClearRandomMovies(State());
      randomMovies := [];
      selectedRandomMovie := None;
      appliedFilters := None;
      error := None;
      assert Is(target);
    }

    method ClearSimilarMovies()
      modifies this
      ensures State() == MoviesState.ClearSimilarMovies(old(State()))
    {
      ghost var target := MoviesState.ClearSimilarMovies(State());
      similarMovies := [];
      selectedMovie := None;
      currentPage := 1;
      totalPages := 0;
      totalResults := 0;
      error := None;
      assert Is(target);
    }

    method ClearError()
      modifies this
      ensures State() == MoviesState.ClearError(old(State()))
    {
      ghost var target := MoviesState.ClearError(State());
      error := None;
      assert Is(target);
    }
  }
}
