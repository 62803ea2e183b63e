/**
 * The query-key factories of lib/queryKeys.ts. A key is an array whose
 * elements are strings, numbers, `undefined` or a filter record; each
 * factory call is a value of a request datatype (its optional arguments
 * carry the source's defaults) and the key it builds is computed from it.
 * A decoder recovers the request from the key, so distinct requests never
 * share a cache entry, and the prefix lemmas say which keys an
 * invalidation by prefix reaches.
 */
module QueryKeys {
  import opened Common

  /** One element of a key; `Rec` is a `Record<string, unknown>` filter object. */
  datatype KeyPart = Str(s: string) | Num(n: int) | Undefined | Rec(fields: map<string, string>)

  type Key = seq<KeyPart>

  /** `'day' | 'week'` */
  datatype TimeWindow = Day | Week

  function WindowPart(w: TimeWindow): KeyPart {
    if w == Day then Str("day") else Str("week")
  }

  function ParseWindow(p: KeyPart): Option<TimeWindow> {
    if p == Str("day") then Some(Day) else if p == Str("week") then Some(Week) else None
  }

  /** An optional filters argument: `undefined` when omitted. */
  function FiltersPart(f: Option<map<string, string>>): KeyPart {
    if f.Some? then Rec(f.value) else Undefined
  }

  function ParseFilters(p: KeyPart): Option<Option<map<string, string>>> {
    if p.Undefined? then Some(None) else if p.Rec? then Some(Some(p.fields)) else None
  }

  predicate IsPrefix(a: Key, b: Key) {
    |a| <= |b| && b[..|a|] == a
  }

  // ---------------------------------------------------------------------
  // movieKeys
  // ---------------------------------------------------------------------

  /** The factories of `movieKeys`, with their default arguments. */
  datatype MovieQuery =
    | MovieAll
    | MovieLists
    | MovieTrending(window: TimeWindow := Week, page: int := 1)
    | MoviePopular(page: int := 1)
    | MovieTopRated(page: int := 1)
    | MovieNowPlaying(page: int := 1)
    | MovieUpcoming(page: int := 1)
    | MovieDetails
    | MovieDetail(movieId: int)
    | MovieSimilar(movieId: int, page: int := 1)
    | MovieRecommendations(movieId: int, page: int := 1)
    | MovieSearch(query: string, page: int := 1, filters: Option<map<string, string>> := None)
    | MovieDiscover(filters: Option<map<string, string>> := None, page: int := 1)
  {
    predicate IsList() {
      MovieTrending? || MoviePopular? || MovieTopRated? || MovieNowPlaying? || MovieUpcoming?
    }
  }

  /** `movieKeys.all` */
  function MovieAllKey(): Key { [Str("movies")] }

  /** `movieKeys.lists()` */
  function MovieListsKey(): Key { MovieAllKey() + [Str("list")] }

  /** `movieKeys.details()` */
  function MovieDetailsKey(): Key { MovieAllKey() + [Str("detail")] }

  function MovieKey(q: MovieQuery): Key {
    match q
    case MovieAll => MovieAllKey()
    case MovieLists => MovieListsKey()
    case MovieTrending(w, p) => MovieListsKey() + [Str("trending"), WindowPart(w), Num(p)]
    case MoviePopular(p) => MovieListsKey() + [Str("popular"), Num(p)]
    case MovieTopRated(p) => MovieListsKey() + [Str("top-rated"), Num(p)]
    case MovieNowPlaying(p) => MovieListsKey() + [Str("now-playing"), Num(p)]
    case MovieUpcoming(p) => MovieListsKey() + [Str("upcoming"), Num(p)]
    case MovieDetails => MovieDetailsKey()
    case MovieDetail(id) => MovieDetailsKey() + [Num(id)]
    case MovieSimilar(id, p) => MovieAllKey() + [Str("similar"), Num(id), Num(p)]
    case MovieRecommendations(id, p) => MovieAllKey() + [Str("recommendations"), Num(id), Num(p)]
    case MovieSearch(s, p, f) => MovieAllKey() + [Str("search"), Str(s), Num(p), FiltersPart(f)]
    case MovieDiscover(f, p) => MovieAllKey() + [Str("discover"), FiltersPart(f), Num(p)]
  }

  /** A one-page list key `[base, 'list', tag, page]`. */
  function ParsePagedList(r: Key, tag: string): Option<int> {
    if |r| == 3 && r[0] == Str("list") && r[1] == Str(tag) && r[2].Num? then Some(r[2].n) else None
  }

  /** A key `[base, tag, id, page]`. */
  function ParseIdPage(r: Key, tag: string): Option<(int, int)> {
    if |r| == 3 && r[0] == Str(tag) && r[1].Num? && r[2].Num? then Some((r[1].n, r[2].n)) else None
  }

  /** The request a movie key was built from, if any. */
  function ParseMovieKey(k: Key): Option<MovieQuery> {
    if |k| == 0 || k[0] != Str("movies") then None
    else
      var r := k[1..];
      if r == [] then Some(MovieAll)
      else if r == [Str("list")] then Some(MovieLists)
      else if |r| == 4 && r[0] == Str("list") && r[1] == Str("trending") && ParseWindow(r[2]).Some? && r[3].Num? then
        Some(MovieTrending(ParseWindow(r[2]).value, r[3].n))
      else if ParsePagedList(r, "popular").Some? then Some(MoviePopular(ParsePagedList(r, "popular").value))
      else if ParsePagedList(r, "top-rated").Some? then Some(MovieTopRated(ParsePagedList(r, "top-rated").value))
      else if ParsePagedList(r, "now-playing").Some? then Some(MovieNowPlaying(ParsePagedList(r, "now-playing").value))
      else if ParsePagedList(r, "upcoming").Some? then Some(MovieUpcoming(ParsePagedList(r, "upcoming").value))
      else if r == [Str("detail")] then Some(MovieDetails)
      else if |r| == 2 && r[0] == Str("detail") && r[1].Num? then Some(MovieDetail(r[1].n))
      else if ParseIdPage(r, "similar").Some? then
        Some(MovieSimilar(ParseIdPage(r, "similar").value.0, ParseIdPage(r, "similar").value.1))
      else if ParseIdPage(r, "recommendations").Some? then
        Some(MovieRecommendations(ParseIdPage(r, "recommendations").value.0, ParseIdPage(r, "recommendations").value.1))
      else if |r| == 4 && r[0] == Str("search") && r[1].Str? && r[2].Num? && ParseFilters(r[3]).Some? then
        Some(MovieSearch(r[1].s, r[2].n, ParseFilters(r[3]).value))
      else if |r| == 3 && r[0] == Str("discover") && ParseFilters(r[1]).Some? && r[2].Num? then
        Some(MovieDiscover(ParseFilters(r[1]).value, r[2].n))
      else None
  }

  /** Every movie key decodes back to the request that built it. */
  lemma MovieKeyRoundTrip(q: MovieQuery)
    ensures ParseMovieKey(MovieKey(q)) == Some(q)
  {
    var k := MovieKey(q);
    assert k[1..] == MovieKey(q)[1..];
    match q {
      case MovieAll =>
      case MovieLists =>
      case MovieTrending(w, p) => assert k[1..] == [Str("list"), Str("trending"), WindowPart(w), Num(p)];
      case MoviePopular(p) => assert k[1..] == [Str("list"), Str("popular"), Num(p)];
      case MovieTopRated(p) => assert k[1..] == [Str("list"), Str("top-rated"), Num(p)];
      case MovieNowPlaying(p) => assert k[1..] == [Str("list"), Str("now-playing"), Num(p)];
      case MovieUpcoming(p) => assert k[1..] == [Str("list"), Str("upcoming"), Num(p)];
      case MovieDetails =>
      case MovieDetail(id) => assert k[1..] == [Str("detail"), Num(id)];
      case MovieSimilar(id, p) => assert k[1..] == [Str("similar"), Num(id), Num(p)];
      case MovieRecommendations(id, p) => assert k[1..] == [Str("recommendations"), Num(id), Num(p)];
      case MovieSearch(s, p, f) => assert k[1..] == [Str("search"), Str(s), Num(p), FiltersPart(f)];
      case MovieDiscover(f, p) => assert k[1..] == [Str("discover"), FiltersPart(f), Num(p)];
    }
  }

  /** Distinct movie requests have distinct keys: no two queries share a cache entry. */
  lemma MovieKeyInjective(q1: MovieQuery, q2: MovieQuery)
    ensures MovieKey(q1) == MovieKey(q2) <==> q1 == q2
  {
    MovieKeyRoundTrip(q1);
    MovieKeyRoundTrip(q2);
  }

  /**
   * Every movie key starts with 'movies'; `detail(id)` is `details()`
   * followed by the id; and invalidating `lists()` reaches exactly the
   * list keys and `lists()` itself.
   */
  lemma MovieKeyPrefixes(q: MovieQuery)
    ensures |MovieKey(q)| >= 1 && MovieKey(q)[0] == Str("movies")
    ensures q.MovieDetail? ==> MovieKey(q) == MovieKey(MovieDetails) + [Num(q.movieId)]
    ensures IsPrefix(MovieKey(MovieLists), MovieKey(q)) <==> q.IsList() || q == MovieLists
    ensures IsPrefix(MovieKey(MovieDetails), MovieKey(q)) <==> q.MovieDetail? || q == MovieDetails
  {
    var k := MovieKey(q);
    assert MovieKey(MovieLists) == [Str("movies"), Str("list")];
    assert MovieKey(MovieDetails) == [Str("movies"), Str("detail")];
    assert Str("list") != Str("detail");
    if q != MovieAll {
      assert |k| >= 2 && k[1] == MovieKey(q)[1];
      assert k[..2] == [k[0], k[1]];
    }
  }

  /** The defaults: `trending()` is `trending('week', 1)` and `popular()` is `popular(1)`. */
  lemma MovieKeyDefaults()
    ensures MovieKey(MovieTrending()) == [Str("movies"), Str("list"), Str("trending"), Str("week"), Num(1)]
    ensures MovieKey(MoviePopular()) == [Str("movies"), Str("list"), Str("popular"), Num(1)]
  {
  }

  // ---------------------------------------------------------------------
  // tvKeys
  // ---------------------------------------------------------------------

  /** The factories of `tvKeys`, with their default arguments. */
  datatype TvQuery =
    | TvAll
    | TvLists
    | TvTrending(window: TimeWindow := Week, page: int := 1)
    | TvPopular(page: int := 1)
    | TvTopRated(page: int := 1)
    | TvAiringToday(page: int := 1)
    | TvOnTheAir(page: int := 1)
    | TvDetails
    | TvDetail(tvId: int)
    | TvSeasons(tvId: int)
    | TvSeason(tvId: int, seasonNumber: int)
    | TvEpisodes(tvId: int, seasonNumber: int)
    | TvEpisode(tvId: int, seasonNumber: int, episodeNumber: int)
    | TvSimilar(tvId: int, page: int := 1)
    | TvRecommendations(tvId: int, page: int := 1)
    | TvSearch(query: string, page: int := 1, filters: Option<map<string, string>> := None)
    | TvDiscover(filters: Option<map<string, string>> := None, page: int := 1)
  {
    predicate IsList() {
      TvTrending? || TvPopular? || TvTopRated? || TvAiringToday? || TvOnTheAir?
    }
  }

  /** `tvKeys.all` */
  function TvAllKey(): Key { [Str("tv")] }

  /** `tvKeys.lists()` */
  function TvListsKey(): Key { TvAllKey() + [Str("list")] }

  /** `tvKeys.details()` */
  function TvDetailsKey(): Key { TvAllKey() + [Str("detail")] }

  /** `tvKeys.seasons(tvId)` */
  function TvSeasonsKey(id: int): Key { TvAllKey() + [Str("season"), Num(id)] }

  /** `tvKeys.episodes(tvId, seasonNumber)` */
  function TvEpisodesKey(id: int, s: int): Key { TvAllKey() + [Str("episode"), Num(id), Num(s)] }

  function TvKey(q: TvQuery): Key {
    match q
    case TvAll => TvAllKey()
    case TvLists => TvListsKey()
    case TvTrending(w, p) => TvListsKey() + [Str("trending"), WindowPart(w), Num(p)]
    case TvPopular(p) => TvListsKey() + [Str("popular"), Num(p)]
    case TvTopRated(p) => TvListsKey() + [Str("top-rated"), Num(p)]
    case TvAiringToday(p) => TvListsKey() + [Str("airing-today"), Num(p)]
    case TvOnTheAir(p) => TvListsKey() + [Str("on-the-air"), Num(p)]
    case TvDetails => TvDetailsKey()
    case TvDetail(id) => TvDetailsKey() + [Num(id)]
    case TvSeasons(id) => TvSeasonsKey(id)
    case TvSeason(id, s) => TvSeasonsKey(id) + [Num(s)]
    case TvEpisodes(id, s) => TvEpisodesKey(id, s)
    case TvEpisode(id, s, e) => TvEpisodesKey(id, s) + [Num(e)]
    case TvSimilar(id, p) => TvAllKey() + [Str("similar"), Num(id), Num(p)]
    case TvRecommendations(id, p) => TvAllKey() + [Str("recommendations"), Num(id), Num(p)]
    case TvSearch(s, p, f) => TvAllKey() + [Str("search"), Str(s), Num(p), FiltersPart(f)]
    case TvDiscover(f, p) => TvAllKey() + [Str("discover"), FiltersPart(f), Num(p)]
  }

  /** The request a TV key was built from, if any. */
  function ParseTvKey(k: Key): Option<TvQuery> {
    if |k| == 0 || k[0] != Str("tv") then None
    else
      var r := k[1..];
      if r == [] then Some(TvAll)
      else if r == [Str("list")] then Some(TvLists)
      else if |r| == 4 && r[0] == Str("list") && r[1] == Str("trending") && ParseWindow(r[2]).Some? && r[3].Num? then
        Some(TvTrending(ParseWindow(r[2]).value, r[3].n))
      else if ParsePagedList(r, "popular").Some? then Some(TvPopular(ParsePagedList(r, "popular").value))
      else if ParsePagedList(r, "top-rated").Some? then Some(TvTopRated(ParsePagedList(r, "top-rated").value))
      else if ParsePagedList(r, "airing-today").Some? then Some(TvAiringToday(ParsePagedList(r, "airing-today").value))
      else if ParsePagedList(r, "on-the-air").Some? then Some(TvOnTheAir(ParsePagedList(r, "on-the-air").value))
      else if r == [Str("detail")] then Some(TvDetails)
      else if |r| == 2 && r[0] == Str("detail") && r[1].Num? then Some(TvDetail(r[1].n))
      else if |r| == 2 && r[0] == Str("season") && r[1].Num? then Some(TvSeasons(r[1].n))
      else if |r| == 3 && r[0] == Str("season") && r[1].Num? && r[2].Num? then Some(TvSeason(r[1].n, r[2].n))
      else if |r| == 3 && r[0] == Str("episode") && r[1].Num? && r[2].Num? then Some(TvEpisodes(r[1].n, r[2].n))
      else if |r| == 4 && r[0] == Str("episode") && r[1].Num? && r[2].Num? && r[3].Num? then
        Some(TvEpisode(r[1].n, r[2].n, r[3].n))
      else if ParseIdPage(r, "similar").Some? then
        Some(TvSimilar(ParseIdPage(r, "similar").value.0, ParseIdPage(r, "similar").value.1))
      else if ParseIdPage(r, "recommendations").Some? then
        Some(TvRecommendations(ParseIdPage(r, "recommendations").value.0, ParseIdPage(r, "recommendations").value.1))
      else if |r| == 4 && r[0] == Str("search") && r[1].Str? && r[2].Num? && ParseFilters(r[3]).Some? then
        Some(TvSearch(r[1].s, r[2].n, ParseFilters(r[3]).value))
      else if |r| == 3 && r[0] == Str("discover") && ParseFilters(r[1]).Some? && r[2].Num? then
        Some(TvDiscover(ParseFilters(r[1]).value, r[2].n))
      else None
  }

  /** The list keys decode back. */
  lemma TvListKeyRoundTrip(q: TvQuery)
    requires q.IsList() || q == TvLists
    ensures ParseTvKey(TvKey(q)) == Some(q)
  {
    var k := TvKey(q);
    match q {
      case TvLists =>
      case TvTrending(w, p) => assert k[1..] == [Str("list"), Str("trending"), WindowPart(w), Num(p)];
      case TvPopular(p) => assert k[1..] == [Str("list"), Str("popular"), Num(p)];
      case TvTopRated(p) => assert k[1..] == [Str("list"), Str("top-rated"), Num(p)];
      case TvAiringToday(p) => assert k[1..] == [Str("list"), Str("airing-today"), Num(p)];
      case TvOnTheAir(p) => assert k[1..] == [Str("list"), Str("on-the-air"), Num(p)];
    }
  }

  /** The detail, season and episode keys decode back. */
  lemma TvNestedKeyRoundTrip(q: TvQuery)
    requires q.TvDetails? || q.TvDetail? || q.TvSeasons? || q.TvSeason? || q.TvEpisodes? || q.TvEpisode?
    ensures ParseTvKey(TvKey(q)) == Some(q)
  {
    var k := TvKey(q);
    match q {
      case TvDetails =>
      case TvDetail(id) => assert k[1..] == [Str("detail"), Num(id)];
      case TvSeasons(id) => assert k[1..] == [Str("season"), Num(id)];
      case TvSeason(id, s) => assert k[1..] == [Str("season"), Num(id), Num(s)];
      case TvEpisodes(id, s) => assert k[1..] == [Str("episode"), Num(id), Num(s)];
      case TvEpisode(id, s, e) => assert k[1..] == [Str("episode"), Num(id), Num(s), Num(e)];
    }
  }

  /** The related-title, search and discover keys decode back. */
  lemma TvOtherKeyRoundTrip(q: TvQuery)
    requires q.TvSimilar? || q.TvRecommendations? || q.TvSearch? || q.TvDiscover?
    ensures ParseTvKey(TvKey(q)) == Some(q)
  {
    var k := TvKey(q);
    match q {
      case TvSimilar(id, p) => assert k[1..] == [Str("similar"), Num(id), Num(p)];
      case TvRecommendations(id, p) => assert k[1..] == [Str("recommendations"), Num(id), Num(p)];
      case TvSearch(s, p, f) => assert k[1..] == [Str("search"), Str(s), Num(p), FiltersPart(f)];
      case TvDiscover(f, p) => assert k[1..] == [Str("discover"), FiltersPart(f), Num(p)];
    }
  }

  /** Every TV key decodes back to the request that built it. */
  lemma TvKeyRoundTrip(q: TvQuery)
    ensures ParseTvKey(TvKey(q)) == Some(q)
  {
    if q.IsList() || q == TvLists {
      TvListKeyRoundTrip(q);
    } else if q.TvDetails? || q.TvDetail? || q.TvSeasons? || q.TvSeason? || q.TvEpisodes? || q.TvEpisode? {
      TvNestedKeyRoundTrip(q);
    } else if q.TvSimilar? || q.TvRecommendations? || q.TvSearch? || q.TvDiscover? {
      TvOtherKeyRoundTrip(q);
    }
  }

  /** Distinct TV requests have distinct keys. */
  lemma TvKeyInjective(q1: TvQuery, q2: TvQuery)
    ensures TvKey(q1) == TvKey(q2) <==> q1 == q2
  {
    TvKeyRoundTrip(q1);
    TvKeyRoundTrip(q2);
  }

  /**
   * Every TV key starts with 'tv'; `season(id, s)` extends `seasons(id)`,
   * `episode(id, s, e)` extends `episodes(id, s)`, `detail(id)` is
   * `details()` followed by the id; and invalidating `lists()` reaches
   * exactly the list keys and `lists()` itself.
   */
  lemma TvKeyPrefixes(q: TvQuery)
    ensures |TvKey(q)| >= 1 && TvKey(q)[0] == Str("tv")
    ensures q.TvSeason? ==> TvKey(q) == TvKey(TvSeasons(q.tvId)) + [Num(q.seasonNumber)]
    ensures q.TvEpisode? ==> TvKey(q) == TvKey(TvEpisodes(q.tvId, q.seasonNumber)) + [Num(q.episodeNumber)]
    ensures q.TvDetail? ==> TvKey(q) == TvKey(TvDetails) + [Num(q.tvId)]
    ensures IsPrefix(TvKey(TvLists), TvKey(q)) <==> q.IsList() || q == TvLists
  {
    var k := TvKey(q);
    assert TvKey(TvLists) == [Str("tv"), Str("list")];
    if q != TvAll {
      assert |k| >= 2 && k[1] == TvKey(q)[1];
      assert k[..2] == [k[0], k[1]];
    }
  }

  /** The literal `['tv', 'detail', id]` the show queries and the enhanced continue-watching hook use. */
  function TvDetailLiteral(id: int): Key {
    [Str("tv"), Str("detail"), Num(id)]
  }

  /** The literal `['tv', 'trending', timeWindow, page]` of the trending-shows query. */
  function TvTrendingLiteral(w: TimeWindow, page: int): Key {
    [Str("tv"), Str("trending"), WindowPart(w), Num(page)]
  }

  /**
   * The detail literal is exactly `tvKeys.detail(id)`, so both share one
   * cache entry; the trending literal is no `tvKeys` key at all, so
   * invalidating `tvKeys.lists()` does not reach it.
   */
  lemma TvLiterals(id: int, w: TimeWindow, page: int, q: TvQuery)
    ensures TvDetailLiteral(id) == TvKey(TvDetail(id))
    ensures TvKey(q) != TvTrendingLiteral(w, page)
    ensures !IsPrefix(TvKey(TvLists), TvTrendingLiteral(w, page))
  {
    TvKeyRoundTrip(q);
    var lit := TvTrendingLiteral(w, page);
    assert lit[1..] == [Str("trending"), WindowPart(w), Num(page)];
    assert ParseTvKey(lit) == None;
  }

  // ---------------------------------------------------------------------
  // genreKeys, userKeys and the combined queryKeys
  // ---------------------------------------------------------------------

  datatype GenreQuery = GenresAll | GenreList

  function GenreKey(q: GenreQuery): Key {
    if q == GenresAll then [Str("genres")] else [Str("genres")] + [Str("list")]
  }

  datatype UserQuery = UserAll | UserFavorites | UserWatchHistory | UserRecentSearches

  function UserKey(q: UserQuery): Key {
    match q
    case UserAll => [Str("user")]
    case UserFavorites => [Str("user")] + [Str("favorites")]
    case UserWatchHistory => [Str("user")] + [Str("watch-history")]
    case UserRecentSearches => [Str("user")] + [Str("recent-searches")]
  }

  /** `queryKeys`: the four factories under one name. */
  datatype AppQuery = Movies(movie: MovieQuery) | Tv(tv: TvQuery) | Genres(genre: GenreQuery) | User(user: UserQuery)

  function AppKey(q: AppQuery): Key {
    match q
    case Movies(m) => MovieKey(m)
    case Tv(t) => TvKey(t)
    case Genres(g) => GenreKey(g)
    case User(u) => UserKey(u)
  }

  /** The first element of a key names its family. */
  function FamilyTag(q: AppQuery): KeyPart {
    match q
    case Movies(_) => Str("movies")
    case Tv(_) => Str("tv")
    case Genres(_) => Str("genres")
    case User(_) => Str("user")
  }

  lemma AppKeyHead(q: AppQuery)
    ensures |AppKey(q)| >= 1 && AppKey(q)[0] == FamilyTag(q)
  {
    match q {
      case Movies(m) => MovieKeyHead(m);
      case Tv(t) => TvKeyHead(t);
      case Genres(g) =>
      case User(u) =>
    }
  }

  lemma MovieKeyHead(q: MovieQuery)
    ensures |MovieKey(q)| >= 1 && MovieKey(q)[0] == Str("movies")
  {
  }

  lemma TvKeyHead(q: TvQuery)
    ensures |TvKey(q)| >= 1 && TvKey(q)[0] == Str("tv")
  {
  }

  /** Across all four families, distinct requests have distinct keys. */
  lemma AppKeyInjective(q1: AppQuery, q2: AppQuery)
    ensures AppKey(q1) == AppKey(q2) <==> q1 == q2
  {
    if AppKey(q1) == AppKey(q2) {
      AppKeyHead(q1);
      AppKeyHead(q2);
      assert FamilyTag(q1) == FamilyTag(q2);
      match q1 {
        case Movies(m) => MovieKeyInjective(m, q2.movie);
        case Tv(t) => TvKeyInjective(t, q2.tv);
        case Genres(g) =>
        case User(u) => assert AppKey(q1)[1..] == AppKey(q2)[1..];
      }
    }
  }
}
