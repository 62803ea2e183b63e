/**
 * The combined search (hooks/useMediaSearch.ts): which catalogue searches
 * run for the selected media filter, how their pages combine into one
 * result, and the hook's own movie/show guards.
 */
module MediaSearch {
  import opened Common
  import opened MovieTypes
  import opened TvTypes
  import opened MediaTypes

  /** The search filter `'all' | 'movie' | 'tv'`. */
  datatype SearchMode = AllMedia | MoviesOnly | ShowsOnly

  /** `MoviesPage` */
  datatype MoviesPage = MoviesPage(page: int, movies: seq<Movie>, totalPages: int, totalResults: int)

  /** `TVShowsPage` */
  datatype ShowsPage = ShowsPage(page: int, tvShows: seq<TvShow>, totalPages: int, totalResults: int)

  /** `MediaSearchResult` */
  datatype MediaSearchResult = MediaSearchResult(
    movies: seq<Movie>, tvShows: seq<TvShow>, totalResults: int, totalPages: int, currentPage: int)

  /** `params.page || 1`: a missing or zero page is the first. */
  function RequestedPage(page: Option<int>): (p: int)
    ensures p == 1 || (page.Some? && p == page.value)
    ensures page.Some? && page.value != 0 ==> p == page.value
  {
    if page.Some? && page.value != 0 then page.value else 1
  }

  /** `enabled: query.length > 0`: the untrimmed text decides. */
  predicate Enabled(query: string) {
    |query| > 0
  }

  /** Which searches the query function awaits: (movies, shows). */
  function Searches(mode: SearchMode): (bool, bool) {
    match mode
    case MoviesOnly => (true, false)
    case ShowsOnly => (false, true)
    case AllMedia => (true, true)
  }

  /**
   * The query function's result, given the pages its searches returned (a
   * page that is not fetched in the mode is not read).
   */
  function Combine(mode: SearchMode, page: Option<int>, movies: MoviesPage, shows: ShowsPage): MediaSearchResult {
    match mode
    case MoviesOnly =>
      MediaSearchResult(movies.movies, [], movies.totalResults, movies.totalPages, movies.page)
    case ShowsOnly =>
      MediaSearchResult([], shows.tvShows, shows.totalResults, shows.totalPages, shows.page)
    case AllMedia =>
      MediaSearchResult(movies.movies, shows.tvShows, movies.totalResults + shows.totalResults,
                        Max(movies.totalPages, shows.totalPages), RequestedPage(page))
  }

  /**
   * A single-kind search returns that kind only, with the totals and the
   * page its response reports; the combined search returns both lists, the
   * sum of the totals, the larger page count and the requested page. A
   * page that is not fetched does not affect the result.
   */
  lemma CombineModes(mode: SearchMode, page: Option<int>, movies: MoviesPage, shows: ShowsPage,
                     movies2: MoviesPage, shows2: ShowsPage)
    ensures var r := Combine(mode, page, movies, shows);
      && (mode == MoviesOnly ==>
            r.tvShows == [] && r.movies == movies.movies && r.totalResults == movies.totalResults
            && r.totalPages == movies.totalPages && r.currentPage == movies.page)
      && (mode == ShowsOnly ==>
            r.movies == [] && r.tvShows == shows.tvShows && r.totalResults == shows.totalResults
            && r.totalPages == shows.totalPages && r.currentPage == shows.page)
      && (mode == AllMedia ==>
            r.movies == movies.movies && r.tvShows == shows.tvShows
            && r.totalResults == movies.totalResults + shows.totalResults
            && r.totalPages >= movies.totalPages && r.totalPages >= shows.totalPages
            && (r.totalPages == movies.totalPages || r.totalPages == shows.totalPages)
            && r.currentPage == RequestedPage(page))
      && (!Searches(mode).0 ==> r == Combine(mode, page, movies2, shows))
      && (!Searches(mode).1 ==> r == Combine(mode, page, movies, shows2))
  {
  }

  /** The query key `['media', 'search', query, mediaType, page, params]`, by its parts. */
  datatype SearchKey = SearchKey(query: string, mode: SearchMode, page: int, params: Option<int>)

  function KeyOf(query: string, mode: SearchMode, page: Option<int>): SearchKey {
    SearchKey(query, mode, RequestedPage(page), page)
  }

  /** Two searches share a cache entry only when text, filter and page parameters agree. */
  lemma KeyOfInjective(q1: string, m1: SearchMode, p1: Option<int>, q2: string, m2: SearchMode, p2: Option<int>)
    ensures KeyOf(q1, m1, p1) == KeyOf(q2, m2, p2) <==> q1 == q2 && m1 == m2 && p1 == p2
  {
  }

  // ---------------------------------------------------------------------
  // The hook's guards
  // ---------------------------------------------------------------------

  /** `isTVShow` here: `'name' in media && 'first_air_date' in media`. */
  predicate SearchIsTVShow(o: MediaObject) {
    o.name.Present() && o.first_air_date.Present()
  }

  /** `isMovie` here: `'title' in media && 'release_date' in media`. */
  predicate SearchIsMovie(o: MediaObject) {
    o.title.Present() && o.release_date.Present()
  }

  /** `getMediaType` */
  function GetMediaType(o: MediaObject): (t: MediaType)
    ensures t == TvType <==> SearchIsTVShow(o)
  {
    if SearchIsTVShow(o) then TvType else MovieType
  }

  /** `getMediaTitle` here; a property that is there but unset reads as `""`. */
  function SearchMediaTitle(o: MediaObject): string {
    if SearchIsTVShow(o) then (if o.name.Val? then o.name.value else "")
    else if o.title.Val? then o.title.value else ""
  }

  /**
   * On the values the application builds the type and title come out
   * right: a show is 'tv' with its name, a transformed movie 'movie' with
   * its title. But this `isMovie` rejects a transformed movie, which has
   * `releaseDate` and no `release_date`, while the shared guard accepts it.
   */
  lemma SearchGuardsOnRecords(m: Movie, s: TvShow)
    ensures GetMediaType(ShowObject(s)) == TvType && SearchMediaTitle(ShowObject(s)) == s.name
    ensures GetMediaType(MovieObject(m)) == MovieType && SearchMediaTitle(MovieObject(m)) == m.title
    ensures !SearchIsMovie(MovieObject(m)) && IsMovie(MovieObject(m))
    ensures SearchIsTVShow(ShowObject(s)) == IsTVShow(ShowObject(s))
  {
  }

  /** `getMediaId` */
  function GetMediaId(o: MediaObject): int {
    o.id
  }
}
