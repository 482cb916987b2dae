/**
 * The catalog client of the movie browser: the record shapes it exchanges
 * with the remote movie catalog, the discovery query builder, the image URL
 * builder and the bounded random page scanner.
 *
 * The remote catalog is not modelled: a call to its discovery endpoint is a
 * `Catalog`, a function from the query parameters to the page it answers
 * with or to a failure.
 */
module TmdbApi {
  import opened Wrappers
  import opened Text

  // ---------------------------------------------------------------------
  // Records
  // ---------------------------------------------------------------------

  /**
   * A catalog movie. `popularity` is an ordered integer key instead of a
   * float; `None` stands for a missing (or otherwise falsy) popularity.
   */
  datatype Movie = Movie(
    id: int,
    title: string,
    overview: string,
    posterPath: Option<string>,
    backdropPath: Option<string>,
    releaseDate: string,
    voteAverage: real,
    voteCount: int,
    genreIds: seq<int>,
    popularity: Option<int>,
    adult: bool,
    video: bool,
    originalLanguage: string,
    originalTitle: string)

  /**
   * One page of a paginated listing. A `totalPages` of 0 also stands for a
   * missing count: the scanner treats both alike.
   */
  datatype MovieResponse = MovieResponse(
    page: int,
    results: seq<Movie>,
    totalPages: int,
    totalResults: int)

  /**
   * The user's discovery constraints. The empty string means "no year";
   * `None` means a null (or, for the rating, undefined) bound; an absent
   * `isDynamicRandom` is `false`.
   */
  datatype MovieFilters = MovieFilters(
    yearFrom: string,
    yearTo: string,
    genres: seq<int>,
    minDuration: Option<int>,
    maxDuration: Option<int>,
    minRating: Option<real>,
    isDynamicRandom: bool)

  datatype CastMember = CastMember(id: int, name: string, character: string, profilePath: Option<string>, order: int)

  datatype CrewMember = CrewMember(id: int, name: string, job: string, department: string, profilePath: Option<string>)

  /** A movie decorated with optional similarity information. */
  datatype SimilarMovie = SimilarMovie(
    movie: Movie,
    similarityScore: Option<int>,
    sharedCrew: Option<seq<CrewMember>>,
    sharedCast: Option<seq<CastMember>>)

  /** Whatever went wrong with a request: transport, status or payload. */
  datatype FetchError = FetchError(reason: string)

  type FetchResult = Result<MovieResponse, FetchError>

  /** A query-parameter value: a string, a number or a boolean. */
  datatype ParamValue = Int(i: int) | Real(r: real) | Str(s: string) | Flag(b: bool)

  type Params = map<ParamKey, ParamValue>

  /** The discovery endpoint: the page it returns for the given parameters, or a failure. */
  type Catalog = Params -> FetchResult

  // ---------------------------------------------------------------------
  // Image URLs
  // ---------------------------------------------------------------------

  const IMAGE_BASE_URL := "https://image.tmdb.org/t/p"
  const PLACEHOLDER_IMAGE := "/placeholder-movie.svg"
  /** The size a caller gets when it names none. */
  const DEFAULT_IMAGE_SIZE := "w500"

  /** The URL of a poster or backdrop at the given size, or the local placeholder. */
  function ImageUrl(path: Option<string>, size: string): (url: string)
    ensures url == PLACEHOLDER_IMAGE <==> path == None || path == Some("")
  {
    if path == None || path.value == "" then PLACEHOLDER_IMAGE
    else IMAGE_BASE_URL + "/" + size + path.value
  }

  /** `getImageUrl(path)` without a size: the size defaults to `w500`. */
  function DefaultImageUrl(path: Option<string>): (url: string)
    ensures url == PLACEHOLDER_IMAGE <==> path == None || path == Some("")
    ensures path.Some? && path.value != "" ==> url == IMAGE_BASE_URL + "/w500" + path.value
  {
    ImageUrl(path, DEFAULT_IMAGE_SIZE)
  }

  /** A real image URL is the base URL, the size and the path, and both can be read back. */
  lemma ImageUrlParts(path: string, size: string)
    requires path != ""
    ensures var url := ImageUrl(Some(path), size);
      && url[..|IMAGE_BASE_URL| + 1] == IMAGE_BASE_URL + "/"
      && url[|IMAGE_BASE_URL| + 1..|IMAGE_BASE_URL| + 1 + |size|] == size
      && url[|IMAGE_BASE_URL| + 1 + |size|..] == path
  {
    var url := ImageUrl(Some(path), size);
    assert url == (IMAGE_BASE_URL + "/") + size + path;
  }

  // ---------------------------------------------------------------------
  // Discovery query builder
  // ---------------------------------------------------------------------

  /** The query parameters the discovery request can carry. */
  datatype ParamKey =
    | Page | SortBy | IncludeAdult | IncludeVideo | Language
    | ReleaseDateGte | ReleaseDateLte | WithGenres | RuntimeGte | RuntimeLte | VoteAverageGte | VoteCountGte

  /** The name of each parameter on the wire. */
  function KeyName(k: ParamKey): string
  {
    match k
    case Page => "page"
    case SortBy => "sort_by"
    case IncludeAdult => "include_adult"
    case IncludeVideo => "include_video"
    case Language => "language"
    case ReleaseDateGte => "primary_release_date.gte"
    case ReleaseDateLte => "primary_release_date.lte"
    case WithGenres => "with_genres"
    case RuntimeGte => "with_runtime.gte"
    case RuntimeLte => "with_runtime.lte"
    case VoteAverageGte => "vote_average.gte"
    case VoteCountGte => "vote_count.gte"
  }

  /** The wire names are distinct, so a map keyed by `ParamKey` is the request's parameter record. */
  lemma KeyNamesDistinct(a: ParamKey, b: ParamKey)
    requires a != b
    ensures KeyName(a) != KeyName(b)
  {
  }

  const SORT_ORDER := "popularity.desc"
  const DISPLAY_LANGUAGE := "pt-BR"
  /** The vote-count floor that every rating bound brings along. */
  const MIN_VOTE_COUNT := 50

  /** The keys every discovery query carries. */
  const FixedKeys: set<ParamKey> := {Page, SortBy, IncludeAdult, IncludeVideo, Language}

  /** The decimal renderings of the genre ids, in order. */
  function GenreStrings(ids: seq<int>): (r: seq<string>)
    decreases |ids|
  {
    if ids == [] then [] else [IntToString(ids[0])] + GenreStrings(ids[1..])
  }

  lemma {:induction false} GenreStringsAt(ids: seq<int>)
    ensures |GenreStrings(ids)| == |ids|
    ensures forall i :: 0 <= i < |ids| ==> GenreStrings(ids)[i] == IntToString(ids[i])
    decreases |ids|
  {
    if ids != [] {
      GenreStringsAt(ids[1..]);
    }
  }

  /** `genres.join(',')`. */
  function GenreList(ids: seq<int>): string
  {
    Join(GenreStrings(ids), ',')
  }

  /**
   * The parameters of the discovery request for `filters` at `page`, filled
   * in the source's order. What each filter adds is stated by the lemmas
   * that follow.
   */
  function DiscoverParams(filters: MovieFilters, page: int): Params
  {
    var base := map[
      Page := Int(page),
      SortBy := Str(SORT_ORDER),
      IncludeAdult := Flag(false),
      IncludeVideo := Flag(false),
      Language := Str(DISPLAY_LANGUAGE)];
    var dated :=
      if filters.yearFrom != "" && filters.yearTo != "" then
        base[ReleaseDateGte := Str(filters.yearFrom + "-01-01")][ReleaseDateLte := Str(filters.yearTo + "-12-31")]
      else if filters.yearFrom != "" then
        base[ReleaseDateGte := Str(filters.yearFrom + "-01-01")]
      else if filters.yearTo != "" then
        base[ReleaseDateLte := Str(filters.yearTo + "-12-31")]
      else base;
    var genred :=
      if |filters.genres| > 0 then dated[WithGenres := Str(GenreList(filters.genres))] else dated;
    var longer :=
      if filters.minDuration.Some? then genred[RuntimeGte := Int(filters.minDuration.value)] else genred;
    var shorter :=
      if filters.maxDuration.Some? then longer[RuntimeLte := Int(filters.maxDuration.value)] else longer;
    if filters.minRating.Some? then
      shorter[VoteAverageGte := Real(filters.minRating.value)][VoteCountGte := Int(MIN_VOTE_COUNT)]
    else shorter
  }

  /** Every query asks for `page`, by popularity, without adult or video-only entries, in the display language. */
  lemma DiscoverFixedParams(filters: MovieFilters, page: int)
    ensures FixedKeys <= DiscoverParams(filters, page).Keys
    ensures DiscoverParams(filters, page)[Page] == Int(page)
    ensures DiscoverParams(filters, page)[SortBy] == Str(SORT_ORDER)
    ensures DiscoverParams(filters, page)[IncludeAdult] == Flag(false)
    ensures DiscoverParams(filters, page)[IncludeVideo] == Flag(false)
    ensures DiscoverParams(filters, page)[Language] == Str(DISPLAY_LANGUAGE)
  {
  }

  /** Year bounds: each present exactly when its year is non-empty, with the first or last day of that year. */
  lemma DiscoverReleaseDates(filters: MovieFilters, page: int)
    ensures var params := DiscoverParams(filters, page);
      && (ReleaseDateGte in params <==> filters.yearFrom != "")
      && (ReleaseDateGte in params ==> params[ReleaseDateGte] == Str(filters.yearFrom + "-01-01"))
      && (ReleaseDateLte in params <==> filters.yearTo != "")
      && (ReleaseDateLte in params ==> params[ReleaseDateLte] == Str(filters.yearTo + "-12-31"))
  {
  }

  /** The genre list: present exactly when there are genres, and then their ids joined with commas. */
  lemma DiscoverGenres(filters: MovieFilters, page: int)
    ensures var params := DiscoverParams(filters, page);
      && (WithGenres in params <==> |filters.genres| > 0)
      && (WithGenres in params ==> params[WithGenres] == Str(GenreList(filters.genres)))
  {
  }

  /** Runtime bounds: each present exactly when its own field is not null, and equal to it. */
  lemma DiscoverRuntime(filters: MovieFilters, page: int)
    ensures var params := DiscoverParams(filters, page);
      && (RuntimeGte in params <==> filters.minDuration.Some?)
      && (RuntimeGte in params ==> params[RuntimeGte] == Int(filters.minDuration.value))
      && (RuntimeLte in params <==> filters.maxDuration.Some?)
      && (RuntimeLte in params ==> params[RuntimeLte] == Int(filters.maxDuration.value))
  {
  }

  /** A rating bound always brings the vote-count floor of 50 with it, and neither comes alone. */
  lemma DiscoverRating(filters: MovieFilters, page: int)
    ensures var params := DiscoverParams(filters, page);
      && (VoteAverageGte in params <==> filters.minRating.Some?)
      && (VoteAverageGte in params ==> params[VoteAverageGte] == Real(filters.minRating.value))
      && (VoteCountGte in params <==> VoteAverageGte in params)
      && (VoteCountGte in params ==> params[VoteCountGte] == Int(MIN_VOTE_COUNT))
  {
  }

  /** The comma-joined genre list loses nothing: splitting and parsing it gives the ids back. */
  lemma GenreListRoundTrip(ids: seq<int>)
    requires |ids| > 0
    ensures ParseInts(Split(GenreList(ids), ',')) == Some(ids)
  {
    var parts := GenreStrings(ids);
    GenreStringsAt(ids);
    forall i | 0 <= i < |parts|
      ensures ',' !in parts[i]
    {
      IntToStringHasNoComma(ids[i]);
    }
    SplitJoin(parts, ',');
    ParseGenreStrings(ids);
  }

  /** Parses every part, failing if any part is not an integer. */
  function ParseInts(parts: seq<string>): Option<seq<int>>
    decreases |parts|
  {
    if parts == [] then Some([])
    else match (ParseInt(parts[0]), ParseInts(parts[1..]))
      case (Some(n), Some(ns)) => Some([n] + ns)
      case _ => None
  }

  lemma {:induction false} ParseGenreStrings(ids: seq<int>)
    ensures ParseInts(GenreStrings(ids)) == Some(ids)
    decreases |ids|
  {
    if ids != [] {
      IntToStringRoundTrip(ids[0]);
      ParseGenreStrings(ids[1..]);
      assert GenreStrings(ids)[1..] == GenreStrings(ids[1..]);
      assert [ids[0]] + ids[1..] == ids;
    }
  }

  /** The worked example of a fully constrained query. */
  lemma DiscoverExample()
    ensures var params := DiscoverParams(MovieFilters("2020", "2022", [28], Some(90), None, Some(7.0), false), 1);
      && params[ReleaseDateGte] == Str("2020-01-01")
      && params[ReleaseDateLte] == Str("2022-12-31")
      && params[WithGenres] == Str("28")
      && params[RuntimeGte] == Int(90)
      && RuntimeLte !in params
      && params[VoteAverageGte] == Real(7.0)
      && params[VoteCountGte] == Int(50)
      && params[Page] == Int(1)
      && params[SortBy] == Str("popularity.desc")
      && params[IncludeAdult] == Flag(false)
      && params[IncludeVideo] == Flag(false)
      && params[Language] == Str(DISPLAY_LANGUAGE)
      && params.Keys == FixedKeys + {ReleaseDateGte, ReleaseDateLte, WithGenres, RuntimeGte, VoteAverageGte, VoteCountGte}
  {
    var filters := MovieFilters("2020", "2022", [28], Some(90), None, Some(7.0), false);
    DiscoverFixedParams(filters, 1);
    DiscoverReleaseDates(filters, 1);
    DiscoverGenres(filters, 1);
    DiscoverRuntime(filters, 1);
    DiscoverRating(filters, 1);
    assert GenreList([28]) == "28" by {
      assert NatToDecimal(28) == "28";
    }
  }

  // ---------------------------------------------------------------------
  // Bounded page scan
  // ---------------------------------------------------------------------

  /** What the scanner sees of the catalog: the answer to a request for each page. */
  type PageSource = int -> FetchResult

  /** The discovery requests for `filters`, page by page. */
  function DiscoveryPages(catalog: Catalog, filters: MovieFilters): PageSource
  {
    page => catalog(DiscoverParams(filters, page))
  }

  /**
   * The scanner's stop test `page >= (total_pages || page)`, where `page`
   * is the page it asked for: a zero (or missing) total also stops it.
   */
  predicate ReachedLastPage(page: int, response: MovieResponse)
    ensures ReachedLastPage(page, response) <==> response.totalPages == 0 || page >= response.totalPages
  {
    page >= (if response.totalPages != 0 then response.totalPages else page)
  }

  /** The pages a scan asked for, in order, and the movies it collected. */
  datatype Scan = Scan(requested: seq<int>, collected: seq<Movie>)

  /**
   * The sequential scan: at most `remaining` fetches from `page` upwards,
   * stopping after the last page and aborting on the first failure.
   */
  function ScanPages(pages: PageSource, page: int, remaining: int): Result<Scan, FetchError>
    decreases remaining
  {
    if remaining <= 0 then Success(Scan([], []))
    else match pages(page)
      case Failure(e) => Failure(e)
      case Success(response) =>
        if ReachedLastPage(page, response) then Success(Scan([page], response.results))
        else Prepend(page, response.results, ScanPages(pages, page + 1, remaining - 1))
  }

  /** A scan that first fetched `page`, with `results`, and then went on as `rest`. */
  function Prepend(page: int, results: seq<Movie>, rest: Result<Scan, FetchError>): Result<Scan, FetchError>
  {
    match rest
    case Failure(e) => Failure(e)
    case Success(s) => Success(Scan([page] + s.requested, results + s.collected))
  }

  /** A scan whose first part, `done`, has already been carried out. */
  function Continue(done: Scan, rest: Result<Scan, FetchError>): Result<Scan, FetchError>
  {
    match rest
    case Failure(e) => Failure(e)
    case Success(s) => Success(Scan(done.requested + s.requested, done.collected + s.collected))
  }

  lemma ContinueFromNothing(rest: Result<Scan, FetchError>)
    ensures Continue(Scan([], []), rest) == rest
  {
    if rest.Success? {
      assert [] + rest.value.requested == rest.value.requested;
      assert [] + rest.value.collected == rest.value.collected;
    }
  }

  lemma ContinueAssociates(done: Scan, page: int, results: seq<Movie>, rest: Result<Scan, FetchError>)
    ensures Continue(done, Prepend(page, results, rest))
      == Continue(Scan(done.requested + [page], done.collected + results), rest)
  {
    if rest.Success? {
      assert done.requested + ([page] + rest.value.requested) == (done.requested + [page]) + rest.value.requested;
      assert done.collected + (results + rest.value.collected) == (done.collected + results) + rest.value.collected;
    }
  }

  /** The results of the given pages' successful fetches, concatenated. */
  function PageResults(pages: PageSource, requested: seq<int>): seq<Movie>
    decreases |requested|
  {
    if requested == [] then []
    else
      var here := match pages(requested[0])
        case Success(response) => response.results
        case Failure(_) => [];
      here + PageResults(pages, requested[1..])
  }

  /**
   * A successful scan asks for consecutive pages from `page`, at most
   * `remaining` of them (at least one when it may ask at all); every one of
   * them was answered, and the buffer is their results in order.
   */
  lemma {:induction false} ScanRequestsConsecutivePages(pages: PageSource, page: int, remaining: int)
    requires ScanPages(pages, page, remaining).Success?
    ensures var sc := ScanPages(pages, page, remaining).value;
      && |sc.requested| <= (if remaining > 0 then remaining else 0)
      && (remaining > 0 ==> |sc.requested| > 0)
      && (forall i :: 0 <= i < |sc.requested| ==> sc.requested[i] == page + i)
      && (forall i :: 0 <= i < |sc.requested| ==> pages(sc.requested[i]).Success?)
      && sc.collected == PageResults(pages, sc.requested)
    decreases remaining
  {
    if remaining > 0 {
      var response := pages(page).value;
      if !ReachedLastPage(page, response) {
        ScanRequestsConsecutivePages(pages, page + 1, remaining - 1);
        var rest := ScanPages(pages, page + 1, remaining - 1).value;
        var sc := ScanPages(pages, page, remaining).value;
        assert sc.requested == [page] + rest.requested;
        assert sc.requested[1..] == rest.requested;
      }
    }
  }

  /**
   * A successful scan goes on past a page only when that page was not the
   * last one, and stops before its budget only right after the last page.
   */
  lemma {:induction false} ScanStopsAtLastPage(pages: PageSource, page: int, remaining: int)
    requires ScanPages(pages, page, remaining).Success?
    ensures var sc := ScanPages(pages, page, remaining).value;
      && (forall i :: 0 <= i < |sc.requested| - 1 ==>
            pages(sc.requested[i]).Success? &&
            !ReachedLastPage(sc.requested[i], pages(sc.requested[i]).value))
      && (0 < |sc.requested| < remaining ==>
            var last := sc.requested[|sc.requested| - 1];
            pages(last).Success? && ReachedLastPage(last, pages(last).value))
    decreases remaining
  {
    if remaining > 0 {
      var response := pages(page).value;
      if !ReachedLastPage(page, response) {
        ScanStopsAtLastPage(pages, page + 1, remaining - 1);
        var rest := ScanPages(pages, page + 1, remaining - 1).value;
        var sc := ScanPages(pages, page, remaining).value;
        assert sc.requested == [page] + rest.requested;
        forall i | 0 <= i < |sc.requested| - 1
          ensures pages(sc.requested[i]).Success? && !ReachedLastPage(sc.requested[i], pages(sc.requested[i]).value)
        {
          if i > 0 {
            assert sc.requested[i] == rest.requested[i - 1];
          }
        }
        if 0 < |sc.requested| < remaining {
          ScanRequestsConsecutivePages(pages, page + 1, remaining - 1);
          assert sc.requested[|sc.requested| - 1] == rest.requested[|rest.requested| - 1];
        }
      }
    }
  }

  /**
   * A scan fails only with the error of a failed fetch at some page within
   * its budget, every earlier page having been answered and not the last.
   */
  lemma {:induction false} ScanFailsOnlyOnFetchFailure(pages: PageSource, page: int, remaining: int, e: FetchError)
    requires ScanPages(pages, page, remaining) == Failure(e)
    ensures exists p :: (page <= p < page + remaining && pages(p) == Failure(e) &&
      forall q :: page <= q < p ==>
        pages(q).Success? && !ReachedLastPage(q, pages(q).value))
    decreases remaining
  {
    if pages(page).Failure? {
      assert pages(page) == Failure(e);
    } else {
      ScanFailsOnlyOnFetchFailure(pages, page + 1, remaining - 1, e);
      var p :| page + 1 <= p < page + remaining && pages(p) == Failure(e) &&
        (forall q :: page + 1 <= q < p ==>
           pages(q).Success? && !ReachedLastPage(q, pages(q).value));
      assert page <= p < page + remaining;
    }
  }

  /** When the first page is also the last one, exactly that page is fetched. */
  lemma SinglePageScan(pages: PageSource, page: int, remaining: int)
    requires remaining >= 1
    requires pages(page).Success?
    requires ReachedLastPage(page, pages(page).value)
    ensures ScanPages(pages, page, remaining) ==
      Success(Scan([page], pages(page).value.results))
  {
  }

  // ---------------------------------------------------------------------
  // Ranking, shuffling, truncation
  // ---------------------------------------------------------------------

  /** `popularity || 0`. */
  function PopularityKey(m: Movie): int
  {
    if m.popularity.Some? then m.popularity.value else 0
  }

  /** Most popular first, stated on neighbours. */
  predicate ByPopularity(s: seq<Movie>) {
    forall i :: 0 < i < |s| ==> PopularityKey(s[i - 1]) >= PopularityKey(s[i])
  }

  /** Neighbour order gives the order of any two positions. */
  lemma {:induction false} ByPopularityPairwise(s: seq<Movie>, i: int, j: int)
    requires ByPopularity(s)
    requires 0 <= i <= j < |s|
    ensures PopularityKey(s[i]) >= PopularityKey(s[j])
    decreases j - i
  {
    if i < j {
      ByPopularityPairwise(s, i + 1, j);
    }
  }

  /** Inserts `m` before the first movie that is not more popular. */
  function InsertByPopularity(m: Movie, s: seq<Movie>): (r: seq<Movie>)
    requires ByPopularity(s)
    ensures ByPopularity(r)
    ensures multiset(r) == multiset(s) + multiset{m}
    ensures |r| == |s| + 1 && (r[0] == m || (|s| > 0 && r[0] == s[0]))
    decreases |s|
  {
    if s == [] || PopularityKey(m) >= PopularityKey(s[0]) then [m] + s
    else
      var r' := InsertByPopularity(m, s[1..]);
      assert s == [s[0]] + s[1..];
      [s[0]] + r'
  }

  /**
   * The ranking of a page's movies: most popular first, a missing
   * popularity counting as 0.
   */
  function RankByPopularity(s: seq<Movie>): (r: seq<Movie>)
    ensures ByPopularity(r)
    ensures multiset(r) == multiset(s)
    decreases |s|
  {
    if s == [] then []
    else
      assert s == [s[0]] + s[1..];
      InsertByPopularity(s[0], RankByPopularity(s[1..]))
  }

  /**
   * The random reordering. The source sorts with a random comparator; here
   * the randomness is the injected `picks`: each step moves the element at
   * index `picks[0]` of what is left to the front (index 0 when the pick is
   * out of range or the picks run out). Every pick sequence gives a permutation.
   */
  function Shuffle(s: seq<Movie>, picks: seq<nat>): (r: seq<Movie>)
    ensures multiset(r) == multiset(s)
    decreases |s|
  {
    if s == [] then []
    else
      var k := if picks != [] && picks[0] < |s| then picks[0] else 0;
      var rest := s[..k] + s[k + 1..];
      MultisetRemoveAt(s, k);
      [s[k]] + Shuffle(rest, if picks == [] then [] else picks[1..])
  }

  /** Removing the element at `k` removes one occurrence of it. */
  lemma MultisetRemoveAt(s: seq<Movie>, k: nat)
    requires k < |s|
    ensures multiset(s[..k] + s[k + 1..]) == multiset(s) - multiset{s[k]}
  {
    assert s == s[..k] + [s[k]] + s[k + 1..];
    assert multiset(s) == multiset(s[..k]) + multiset{s[k]} + multiset(s[k + 1..]);
  }

  lemma ShuffleFirstPick(s: seq<Movie>, k: nat, picks: seq<nat>)
    requires k < |s|
    ensures Shuffle(s, [k] + picks) == [s[k]] + Shuffle(s[..k] + s[k + 1..], picks)
  {
    var p := [k] + picks;
    assert p != [] && p[0] == k && p[1..] == picks;
  }

  /** Picking `k` first and then `picks` yields `t` once the rest yields `t[1..]`. */
  lemma ShuffleCons(s: seq<Movie>, k: nat, picks: seq<nat>, t: seq<Movie>)
    requires k < |s| && |t| > 0 && s[k] == t[0]
    requires Shuffle(s[..k] + s[k + 1..], picks) == t[1..]
    ensures Shuffle(s, [k] + picks) == t
  {
    ShuffleFirstPick(s, k, picks);
    assert t == [t[0]] + t[1..];
  }

  /** The first element of a reordering can be taken out of the original. */
  lemma FirstOfReordering(s: seq<Movie>, t: seq<Movie>) returns (k: nat)
    requires multiset(t) == multiset(s) && t != []
    ensures k < |s| && s[k] == t[0]
    ensures multiset(t[1..]) == multiset(s[..k] + s[k + 1..])
  {
    assert t[0] in multiset(s);
    k :| 0 <= k < |s| && s[k] == t[0];
    MultisetRemoveAt(s, k);
    assert t == [t[0]] + t[1..];
    assert multiset(t) == multiset{t[0]} + multiset(t[1..]);
  }

  /** Every reordering of `s` is the shuffle of some pick sequence. */
  lemma {:induction false} ShuffleReachesEveryPermutation(s: seq<Movie>, t: seq<Movie>)
    requires multiset(t) == multiset(s)
    ensures exists picks :: Shuffle(s, picks) == t
    decreases |s|
  {
    if t == [] {
      assert multiset(s) == multiset{};
      assert Shuffle(s, []) == t;
    } else {
      var k := FirstOfReordering(s, t);
      ShuffleReachesEveryPermutation(s[..k] + s[k + 1..], t[1..]);
      var picks :| Shuffle(s[..k] + s[k + 1..], picks) == t[1..];
      ShuffleCons(s, k, picks, t);
    }
  }

  /** The end index of `slice(0, count)` on a list of length `len`. */
  function SliceEnd(len: nat, count: int): (end: nat)
    ensures end <= len
  {
    if count < 0 then (if len + count > 0 then len + count else 0)
    else if count < len then count else len
  }

  /**
   * What the scanner returns for its buffer: nothing for an empty buffer,
   * otherwise the first `count` of the ranked and shuffled buffer.
   */
  function RandomSample(collected: seq<Movie>, count: int, picks: seq<nat>): (r: seq<Movie>)
    ensures multiset(r) <= multiset(collected)
    ensures count >= 0 ==> |r| == (if count < |collected| then count else |collected|)
    ensures count < 0 ==> |r| == (if |collected| + count > 0 then |collected| + count else 0)
  {
    if |collected| == 0 then []
    else
      var shuffled := Shuffle(RankByPopularity(collected), picks);
      var end := SliceEnd(|shuffled|, count);
      assert shuffled == shuffled[..end] + shuffled[end..];
      shuffled[..end]
  }

  /** Every movie a sample can hold: each reordering of the buffer can be the one truncated. */
  lemma RandomSampleCoversEveryReordering(collected: seq<Movie>, t: seq<Movie>, count: int)
    requires |collected| > 0
    requires multiset(t) == multiset(collected)
    ensures exists picks :: RandomSample(collected, count, picks) == t[..SliceEnd(|t|, count)]
  {
    var ranked := RankByPopularity(collected);
    ShuffleReachesEveryPermutation(ranked, t);
    var picks :| Shuffle(ranked, picks) == t;
    assert RandomSample(collected, count, picks) == t[..SliceEnd(|t|, count)];
  }

  /**
   * The random page scanner over any page source: the sample of the scan's
   * buffer, or the scan's failure.
   */
  function SampleOf(pages: PageSource, count: int, startPage: int, pagesToScan: int, picks: seq<nat>)
    : (r: Result<seq<Movie>, FetchError>)
    ensures var scan := ScanPages(pages, startPage, pagesToScan);
      && (r.Failure? <==> scan.Failure?)
      && (r.Failure? ==> r.error == scan.error)
      && (r.Success? ==> multiset(r.value) <= multiset(scan.value.collected))
  {
    match ScanPages(pages, startPage, pagesToScan)
    case Failure(e) => Failure(e)
    case Success(sc) => Success(RandomSample(sc.collected, count, picks))
  }

  /** `getRandomMovies(filters, count, startPage, pagesToScan)` as a value. */
  function RandomMovies(catalog: Catalog, filters: MovieFilters, count: int, startPage: int, pagesToScan: int, picks: seq<nat>)
    : Result<seq<Movie>, FetchError>
  {
    SampleOf(DiscoveryPages(catalog, filters), count, startPage, pagesToScan, picks)
  }

  /**
   * A successful sample asks only for pages in `[startPage, startPage +
   * pagesToScan)` and returns at most `count` of their results, exactly
   * `count` when they hold that many.
   */
  lemma SampleScansWindow(pages: PageSource, count: int, startPage: int, pagesToScan: int, picks: seq<nat>)
    ensures var r := SampleOf(pages, count, startPage, pagesToScan, picks);
      var scan := ScanPages(pages, startPage, pagesToScan);
      && (r.Success? ==>
            && (forall p :: p in scan.value.requested ==> startPage <= p < startPage + pagesToScan)
            && (count >= 0 ==> |r.value| == if count < |scan.value.collected| then count else |scan.value.collected|))
  {
    if ScanPages(pages, startPage, pagesToScan).Success? {
      ScanRequestsConsecutivePages(pages, startPage, pagesToScan);
    }
  }

  /**
   * The scanning loop of the random page scanner: fetches consecutive pages
   * from `startPage` into a buffer, at most `pagesToScan` of them, stopping
   * after the last page. A failed fetch aborts it with that failure.
   */
  method CollectPages(catalog: Catalog, filters: MovieFilters, startPage: int, pagesToScan: int)
    returns (r: Result<seq<Movie>, FetchError>)
    ensures var scan := ScanPages(DiscoveryPages(catalog, filters), startPage, pagesToScan);
      && (r.Failure? <==> scan.Failure?)
      && (r.Failure? ==> r.error == scan.error)
      && (r.Success? ==> r.value == scan.value.collected)
  {
    ghost var pages := DiscoveryPages(catalog, filters);
    var collected: seq<Movie> := [];
    ghost var requested: seq<int> := [];
    var page := startPage;
    var i := 0;
    ContinueFromNothing(ScanPages(pages, startPage, pagesToScan));
    while i < pagesToScan
      invariant 0 <= i
      invariant pagesToScan > 0 ==> i <= pagesToScan
      invariant page == startPage + i
      invariant Continue(Scan(requested, collected), ScanPages(pages, page, pagesToScan - i))
        == ScanPages(pages, startPage, pagesToScan)
      decreases pagesToScan - i
    {
      var response := catalog(DiscoverParams(filters, page));
      assert response == pages(page);
      if response.Failure? {
        return Failure(response.error);
      }
      if ReachedLastPage(page, response.value) {
        assert ScanPages(pages, page, pagesToScan - i) == Success(Scan([page], response.value.results));
        collected := collected + response.value.results;
        requested := requested + [page];
        break;
      }
      ContinueAssociates(Scan(requested, collected), page, response.value.results,
        ScanPages(pages, page + 1, pagesToScan - i - 1));
      collected := collected + response.value.results;
      requested := requested + [page];
      page := page + 1;
      i := i + 1;
    }
    assert Scan(requested, collected) == Scan(requested + [], collected + []);
    assert ScanPages(pages, startPage, pagesToScan) == Success(Scan(requested, collected));
    return Success(collected);
  }

  /**
   * The random page scanner: collects the pages, then ranks, shuffles and
   * truncates the buffer. A failed fetch aborts the call with its error.
   */
  method GetRandomMovies(catalog: Catalog, filters: MovieFilters, count: int, startPage: int, pagesToScan: int, picks: seq<nat>)
    returns (r: Result<seq<Movie>, FetchError>)
    ensures r == RandomMovies(catalog, filters, count, startPage, pagesToScan, picks)
  {
    var scanned := CollectPages(catalog, filters, startPage, pagesToScan);
    if scanned.Failure? {
      return Failure(scanned.error);
    }
    var collected := scanned.value;
    if |collected| == 0 {
      return Success([]);
    }
    collected := RankByPopularity(collected);
    collected := Shuffle(collected, picks);
    return Success(collected[..SliceEnd(|collected|, count)]);
  }
}
