/**
 * Records of types/movie.ts: the catalogue's wire format (`TMDB...`) and the
 * application's own movie records. Numbers that the catalogue sends as
 * fractions (ratings, popularity) are reals; identifiers and counts are
 * integers; `T | null` is `Option<T>`.
 */
module MovieTypes {
  import opened Common

  datatype TmdbGenre = TmdbGenre(id: int, name: string)

  datatype TmdbMovie = TmdbMovie(
    id: int,
    title: string,
    originalTitle: string,
    overview: string,
    posterPath: Option<string>,
    backdropPath: Option<string>,
    releaseDate: string,
    genreIds: seq<int>,
    adult: bool,
    originalLanguage: string,
    popularity: real,
    voteAverage: real,
    voteCount: int,
    video: bool)

  datatype TmdbSpokenLanguage = TmdbSpokenLanguage(englishName: string, iso639: string, name: string)

  datatype TmdbProductionCompany = TmdbProductionCompany(
    id: int, logoPath: Option<string>, name: string, originCountry: string)

  datatype TmdbProductionCountry = TmdbProductionCountry(iso3166: string, name: string)

  datatype TmdbCollection = TmdbCollection(
    id: int, name: string, posterPath: Option<string>, backdropPath: Option<string>)

  datatype TmdbMovieDetail = TmdbMovieDetail(
    id: int,
    title: string,
    originalTitle: string,
    overview: string,
    posterPath: Option<string>,
    backdropPath: Option<string>,
    releaseDate: string,
    adult: bool,
    originalLanguage: string,
    popularity: real,
    voteAverage: real,
    voteCount: int,
    video: bool,
    genres: seq<TmdbGenre>,
    runtime: Option<int>,
    budget: int,
    revenue: int,
    status: string,
    tagline: Option<string>,
    homepage: Option<string>,
    imdbId: Option<string>,
    spokenLanguages: seq<TmdbSpokenLanguage>,
    productionCompanies: seq<TmdbProductionCompany>,
    productionCountries: seq<TmdbProductionCountry>,
    belongsToCollection: Option<TmdbCollection>)

  datatype TmdbCast = TmdbCast(
    id: int,
    name: string,
    character: string,
    profilePath: Option<string>,
    order: int,
    castId: int,
    creditId: string,
    gender: Option<int>,
    knownForDepartment: string,
    adult: bool,
    popularity: real)

  datatype TmdbCrew = TmdbCrew(
    id: int,
    name: string,
    job: string,
    department: string,
    profilePath: Option<string>,
    creditId: string,
    gender: Option<int>,
    knownForDepartment: string,
    adult: bool,
    popularity: real)

  datatype TmdbVideo = TmdbVideo(
    id: string,
    iso639: string,
    iso3166: string,
    key: string,
    name: string,
    site: string,
    size: int,
    videoType: string,
    official: bool,
    publishedAt: string)

  /** The error payload the catalogue sends with a non-2xx status. */
  datatype TmdbErrorResponse = TmdbErrorResponse(statusCode: int, statusMessage: string, success: bool)

  /** The application's movie record. */
  datatype Movie = Movie(
    id: int,
    title: string,
    originalTitle: string,
    overview: string,
    posterPath: Option<string>,
    backdropPath: Option<string>,
    releaseDate: string,
    releaseYear: Option<int>,
    genres: seq<string>,
    rating: real,
    voteCount: int,
    popularity: real,
    isAdult: bool,
    language: string)

  datatype Collection = Collection(
    id: int, name: string, posterPath: Option<string>, backdropPath: Option<string>)

  datatype Cast = Cast(id: int, name: string, character: string, profilePath: Option<string>, order: int)

  datatype Crew = Crew(id: int, name: string, job: string, department: string, profilePath: Option<string>)

  datatype Video = Video(
    id: string, key: string, name: string, site: string, videoType: string,
    official: bool, publishedAt: string)

  datatype MovieDetail = MovieDetail(
    id: int,
    title: string,
    originalTitle: string,
    overview: string,
    posterPath: Option<string>,
    backdropPath: Option<string>,
    releaseDate: string,
    releaseYear: Option<int>,
    genres: seq<string>,
    rating: real,
    voteCount: int,
    popularity: real,
    isAdult: bool,
    language: string,
    runtime: Option<int>,
    budget: int,
    revenue: int,
    status: string,
    tagline: Option<string>,
    homepage: Option<string>,
    imdbId: Option<string>,
    spokenLanguages: seq<string>,
    productionCompanies: seq<string>,
    productionCountries: seq<string>,
    collection: Option<Collection>,
    cast: seq<Cast>,
    crew: seq<Crew>,
    videos: seq<Video>)
  {
    /** The `Movie` fields of a detail record, as the continue-watching hooks copy them. */
    function AsMovie(): Movie {
      Movie(id, title, originalTitle, overview, posterPath, backdropPath, releaseDate,
            releaseYear, genres, rating, voteCount, popularity, isAdult, language)
    }
  }

  /** `TMDBError(message, statusCode, statusMessage)`. */
  datatype TmdbError = TmdbError(message: string, statusCode: int, statusMessage: string)
}

/** Records of types/tv.ts that the model reads. */
module TvTypes {
  import opened Common

  datatype TvEpisode = TvEpisode(
    id: int,
    name: string,
    overview: string,
    stillPath: Option<string>,
    episodeNumber: int,
    seasonNumber: int,
    airDate: string,
    runtime: Option<int>,
    voteAverage: real,
    voteCount: int)

  datatype TvSeason = TvSeason(
    id: int,
    name: string,
    overview: string,
    posterPath: Option<string>,
    seasonNumber: int,
    episodeCount: int,
    airDate: string)

  datatype TvShow = TvShow(
    id: int,
    name: string,
    originalName: string,
    overview: string,
    posterPath: Option<string>,
    backdropPath: Option<string>,
    firstAirDate: string,
    voteAverage: real,
    voteCount: int,
    popularity: real,
    numberOfSeasons: int,
    numberOfEpisodes: int,
    seasons: seq<TvSeason>)
}
