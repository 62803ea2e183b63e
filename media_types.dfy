/**
 * The unified media helpers of types/media.ts. The guards there test which
 * properties an object HAS (`'title' in media`), and the accessors fall back
 * with `||` from the camelCase field of a transformed movie to the
 * snake_case field of a raw catalogue record. So a media value is modelled
 * as an object whose fields may be absent, present but null or undefined,
 * or present with a value.
 */
module MediaTypes {
  import opened Common
  import opened MovieTypes
  import opened TvTypes

  /** `'movie' | 'tv'` */
  datatype MediaType = MovieType | TvType

  /** `{ season, episode }` of the episode to play next. */
  datatype EpisodeRef = EpisodeRef(season: int, episode: int)

  /**
   * A continue-watching entry. `lastWatched` is an ISO date string in the
   * source; here it is the instant in milliseconds it denotes.
   */
  datatype ContinueWatchingItem = ContinueWatchingItem(
    id: int,
    kind: MediaType,
    progress: real,
    lastWatched: int,
    title: Option<string>,
    posterPath: Option<string>,
    runtime: Option<int>,
    name: Option<string>,
    season: Option<int>,
    episode: Option<int>,
    episodeTitle: Option<string>,
    nextEpisode: Option<EpisodeRef>)

  /** A property: not there at all, there but `null`/`undefined`, or there with a value. */
  datatype Field<T> = Missing | Null | Val(value: T) {
    predicate Present() { !Missing? }
  }

  /** A movie or show as a JavaScript object, reduced to the properties the helpers read. */
  datatype MediaObject = MediaObject(
    id: int,
    title: Field<string>,
    name: Field<string>,
    releaseDate: Field<string>,
    release_date: Field<string>,
    first_air_date: Field<string>,
    number_of_seasons: Field<int>,
    posterPath: Field<string>,
    poster_path: Field<string>,
    backdropPath: Field<string>,
    backdrop_path: Field<string>,
    rating: Field<real>,
    vote_average: Field<real>)

  /** A JavaScript string is truthy when it is there and not empty. */
  predicate TruthyString(f: Field<string>) {
    f.Val? && f.value != ""
  }

  /** `a || b` on two possibly missing strings gives the first truthy one. */
  function OrString(a: Field<string>, b: Option<string>): Option<string> {
    if TruthyString(a) then Some(a.value) else b
  }

  function OptField(o: Option<string>): Field<string> {
    if o.Some? then Val(o.value) else Null
  }

  /** The object a transformed `Movie` is at run time (no snake_case compatibility fields). */
  function MovieObject(m: Movie): MediaObject {
    MediaObject(m.id, Val(m.title), Missing, Val(m.releaseDate), Missing, Missing, Missing,
                OptField(m.posterPath), Missing, OptField(m.backdropPath), Missing,
                Val(m.rating), Missing)
  }

  /** The object a catalogue `TVShow` is at run time. */
  function ShowObject(s: TvShow): MediaObject {
    MediaObject(s.id, Missing, Val(s.name), Missing, Missing, Val(s.firstAirDate),
                Val(s.numberOfSeasons), Missing, OptField(s.posterPath), Missing,
                OptField(s.backdropPath), Missing, Val(s.voteAverage))
  }

  /** `Movie | TVShow` as the typed code holds it. */
  datatype Media = MovieMedia(movie: Movie) | ShowMedia(show: TvShow) {
    function Object(): MediaObject {
      if MovieMedia? then MovieObject(movie) else ShowObject(show)
    }
    function Id(): int {
      if MovieMedia? then movie.id else show.id
    }
  }

  /** `isMovie`: has `title` and a release date in either spelling. */
  predicate IsMovie(o: MediaObject) {
    o.title.Present() && (o.releaseDate.Present() || o.release_date.Present())
  }

  /** `isTVShow`: has `name`, `first_air_date` and `number_of_seasons`. */
  predicate IsTVShow(o: MediaObject) {
    o.name.Present() && o.first_air_date.Present() && o.number_of_seasons.Present()
  }

  /** `getMediaTitle`; a property that is there but unset reads as `""` here. */
  function GetMediaTitle(o: MediaObject): string {
    if IsMovie(o) then (if o.title.Val? then o.title.value else "")
    else if o.name.Val? then o.name.value else ""
  }

  /** `getMediaReleaseDate` */
  function GetMediaReleaseDate(o: MediaObject): string {
    if IsMovie(o) then OrString(o.releaseDate, OrString(o.release_date, None)).GetOr("")
    else OrString(o.first_air_date, None).GetOr("")
  }

  /** `getMediaPosterPath`; `None` is `null`. */
  function GetMediaPosterPath(o: MediaObject): Option<string> {
    if IsMovie(o) then OrString(o.posterPath, OrString(o.poster_path, None))
    else OrString(o.poster_path, None)
  }

  /** `getMediaBackdropPath` */
  function GetMediaBackdropPath(o: MediaObject): Option<string> {
    if IsMovie(o) then OrString(o.backdropPath, OrString(o.backdrop_path, None))
    else OrString(o.backdrop_path, None)
  }

  /**
   * A transformed movie passes `isMovie` and not `isTVShow`; a catalogue
   * show passes `isTVShow` and not `isMovie`. So the guards tell the two
   * apart on every value the application builds.
   */
  lemma GuardsSeparate(m: Media)
    ensures IsMovie(m.Object()) <==> m.MovieMedia?
    ensures IsTVShow(m.Object()) <==> m.ShowMedia?
  {
  }

  /** The accessors read the typed record's own fields. */
  lemma AccessorsOnRecords(m: Media)
    ensures m.MovieMedia? ==> GetMediaTitle(m.Object()) == m.movie.title
    ensures m.ShowMedia? ==> GetMediaTitle(m.Object()) == m.show.name
    ensures m.MovieMedia? ==> GetMediaReleaseDate(m.Object()) == m.movie.releaseDate
    ensures m.ShowMedia? ==> GetMediaReleaseDate(m.Object()) == m.show.firstAirDate
    ensures m.MovieMedia? ==>
      GetMediaPosterPath(m.Object()) == (if m.movie.posterPath == Some("") then None else m.movie.posterPath)
    ensures m.ShowMedia? ==>
      GetMediaPosterPath(m.Object()) == (if m.show.posterPath == Some("") then None else m.show.posterPath)
  {
  }

  /**
   * For a movie the release date is the camelCase value when that is a
   * non-empty string, else the snake_case one, else `""`; the result is
   * `""` exactly when neither is a non-empty string.
   */
  lemma ReleaseDateFallback(o: MediaObject)
    requires IsMovie(o)
    ensures TruthyString(o.releaseDate) ==> GetMediaReleaseDate(o) == o.releaseDate.value
    ensures !TruthyString(o.releaseDate) && TruthyString(o.release_date) ==>
      GetMediaReleaseDate(o) == o.release_date.value
    ensures GetMediaReleaseDate(o) == "" <==>
      !TruthyString(o.releaseDate) && !TruthyString(o.release_date)
  {
  }

  /**
   * Poster and backdrop accessors give a non-empty path or null: for a movie
   * the camelCase field first, then the snake_case field; for anything else
   * only the snake_case field.
   */
  lemma PathFallback(o: MediaObject)
    ensures var p := GetMediaPosterPath(o);
      p.Some? ==>
        (p.value != "" &&
         if IsMovie(o) && TruthyString(o.posterPath) then p.value == o.posterPath.value
         else p.value == o.poster_path.value && TruthyString(o.poster_path))
    ensures GetMediaPosterPath(o).None? <==>
      !TruthyString(o.poster_path) && (!IsMovie(o) || !TruthyString(o.posterPath))
    ensures var b := GetMediaBackdropPath(o);
      b.Some? ==>
        (b.value != "" &&
         if IsMovie(o) && TruthyString(o.backdropPath) then b.value == o.backdropPath.value
         else b.value == o.backdrop_path.value && TruthyString(o.backdrop_path))
    ensures GetMediaBackdropPath(o).None? <==>
      !TruthyString(o.backdrop_path) && (!IsMovie(o) || !TruthyString(o.backdropPath))
  {
  }
}
