/**
 * The response transformers (lib/tmdb/transformer.ts): catalogue records
 * to the application's records — release years, genre names, the rounded
 * rating, and the credit and video lists.
 */
module Transformer {
  import opened Common
  import opened MovieTypes

  // ---------------------------------------------------------------------
  // extractYear
  // ---------------------------------------------------------------------

  /** `s.split('-')[0]`: the text before the first '-', or all of it. */
  function BeforeDash(s: string): (r: string)
    ensures |r| <= |s| && r == s[..|r|]
    ensures forall i :: 0 <= i < |r| ==> r[i] != '-'
    ensures |r| < |s| ==> s[|r|] == '-'
    decreases |s|
  {
    if s == [] || s[0] == '-' then [] else [s[0]] + BeforeDash(s[1..])
  }

  /**
   * `parseInt(s, 10)` on integers: leading whitespace is skipped, an
   * optional sign is read, then the longest run of decimal digits; with no
   * digit the result is `NaN`, here `None`.
   */
  function ParseInt(s: string): Option<int> {
    var t := TrimStart(s);
    var negative := t != [] && t[0] == '-';
    var rest := if t != [] && (t[0] == '-' || t[0] == '+') then t[1..] else t;
    var digits := LeadingDigits(rest);
    if digits == [] then None
    else
      var n: int := ParseDigits(digits);
      if negative then Some(-n) else Some(n)
  }

  /** `extractYear(dateString)` */
  function ExtractYear(date: string): Option<int> {
    if date == "" then None else ParseInt(BeforeDash(date))
  }

  /**
   * The year is never negative (a leading '-' leaves nothing before the
   * dash); the empty date and a date whose first character is neither
   * whitespace, a sign nor a digit have none.
   */
  lemma ExtractYearBounds(date: string)
    ensures ExtractYear(date).Some? ==> ExtractYear(date).value >= 0
    ensures date == "" ==> ExtractYear(date).None?
    ensures date != [] && !IsJsWhitespace(date[0]) && !IsDigit(date[0]) && date[0] != '+' ==> ExtractYear(date).None?
  {
    if date != "" {
      var b := BeforeDash(date);
      var t := TrimStart(b);
      if t != [] {
        assert t[0] == b[|b| - |t|];
      }
      if !IsJsWhitespace(date[0]) && !IsDigit(date[0]) && date[0] != '+' && b != [] {
        assert TrimStart(b) == b;
      }
    }
  }

  /** A date written `YYYY-…` (or just `YYYY`) gives back the year `YYYY`. */
  lemma ExtractYearOfDate(year: nat, rest: string)
    ensures ExtractYear(NatToString(year) + "-" + rest) == Some(year)
    ensures ExtractYear(NatToString(year)) == Some(year)
  {
    var y := NatToString(year);
    BeforeDashOfPrefix(y, "-" + rest);
    assert y + "-" + rest == y + ("-" + rest);
    BeforeDashOfPrefix(y, "");
    assert y + "" == y;
    ParseIntOfDigits(y);
    ParseNatToString(year);
  }

  /** A non-empty run of digits parses to its value. */
  lemma ParseIntOfDigits(d: string)
    requires d != [] && AllDigits(d)
    ensures ParseInt(d) == Some(ParseDigits(d) as int)
  {
    assert !IsJsWhitespace(d[0]);
    assert TrimStart(d) == d;
    assert d[0] != '-' && d[0] != '+';
    LeadingDigitsOfDigits(d, []);
    assert d + [] == d;
  }

  lemma {:induction false} BeforeDashOfPrefix(d: string, rest: string)
    requires AllDigits(d)
    requires rest == [] || rest[0] == '-'
    ensures BeforeDash(d + rest) == d
    decreases |d|
  {
    if d == [] {
      assert d + rest == rest;
    } else {
      assert (d + rest)[1..] == d[1..] + rest;
      BeforeDashOfPrefix(d[1..], rest);
    }
  }

  // ---------------------------------------------------------------------
  // Genres
  // ---------------------------------------------------------------------

  /** `new Map(genres.map(g => [g.id, g.name]))`: entries in order, a later id replacing an earlier one. */
  function GenreTable(genres: seq<TmdbGenre>): map<int, string>
    decreases |genres|
  {
    if genres == [] then map[]
    else GenreTable(genres[..|genres| - 1])[genres[|genres| - 1].id := genres[|genres| - 1].name]
  }

  /** An id is in the table iff some genre has it, and it maps to the name of the last such genre. */
  lemma {:induction false} GenreTableLookup(genres: seq<TmdbGenre>, id: int)
    ensures id in GenreTable(genres) <==> exists i :: 0 <= i < |genres| && genres[i].id == id
    ensures id in GenreTable(genres) ==>
      exists i :: (0 <= i < |genres| && genres[i].id == id
        && GenreTable(genres)[id] == genres[i].name
        && forall j :: i < j < |genres| ==> genres[j].id != id)
    decreases |genres|
  {
    if genres != [] {
      var init := genres[..|genres| - 1];
      var last := genres[|genres| - 1];
      GenreTableLookup(init, id);
      if last.id != id {
        if exists i :: 0 <= i < |genres| && genres[i].id == id {
          var i :| 0 <= i < |genres| && genres[i].id == id;
          assert init[i] == genres[i];
        }
        if id in GenreTable(init) {
          var i :| 0 <= i < |init| && init[i].id == id && GenreTable(init)[id] == init[i].name
            && forall j :: i < j < |init| ==> init[j].id != id;
          assert genres[i] == init[i];
          forall j | i < j < |genres| ensures genres[j].id != id {
            if j < |init| { assert genres[j] == init[j]; }
          }
        }
      } else {
        assert genres[|genres| - 1].id == id;
      }
    }
  }

  /** With distinct ids, each genre's id maps to its own name. */
  lemma GenreTableDistinct(genres: seq<TmdbGenre>, k: int)
    requires forall i, j :: 0 <= i < j < |genres| ==> genres[i].id != genres[j].id
    requires 0 <= k < |genres|
    ensures genres[k].id in GenreTable(genres) && GenreTable(genres)[genres[k].id] == genres[k].name
  {
    GenreTableLookup(genres, genres[k].id);
  }

  /** `genre_ids.map(id => genreMap.get(id)).filter(name => name !== undefined)` */
  function GenreNames(ids: seq<int>, table: map<int, string>): (r: seq<string>)
    ensures |r| <= |ids|
    decreases |ids|
  {
    if ids == [] then []
    else if ids[0] in table then [table[ids[0]]] + GenreNames(ids[1..], table)
    else GenreNames(ids[1..], table)
  }

  /** Every name is the table's name for one of the ids. */
  lemma {:induction false} GenreNamesFrom(ids: seq<int>, table: map<int, string>, name: string)
    requires name in GenreNames(ids, table)
    ensures exists id :: id in ids && id in table && table[id] == name
    decreases |ids|
  {
    if ids[0] in table && name == table[ids[0]] {
      var w := ids[0];
      assert w in ids && w in table && table[w] == name;
    } else {
      GenreNamesFrom(ids[1..], table, name);
      var id :| id in ids[1..] && id in table && table[id] == name;
      assert id in ids;
    }
  }

  lemma {:induction false} GenreNamesEmptyTable(ids: seq<int>)
    ensures GenreNames(ids, map[]) == []
    decreases |ids|
  {
    if ids != [] {
      GenreNamesEmptyTable(ids[1..]);
    }
  }

  function Known(table: map<int, string>): int -> bool {
    id => id in table
  }

  /** The names are those of the known ids, in their order: unknown ids are dropped, nothing else. */
  lemma {:induction false} GenreNamesOrder(ids: seq<int>, table: map<int, string>)
    ensures var known := Filter(ids, Known(table));
      |GenreNames(ids, table)| == |known|
      && forall k :: 0 <= k < |known| ==> known[k] in table && GenreNames(ids, table)[k] == table[known[k]]
    decreases |ids|
  {
    if ids != [] {
      GenreNamesOrder(ids[1..], table);
      var known := Filter(ids, Known(table));
      var known1 := Filter(ids[1..], Known(table));
      if ids[0] in table {
        assert known == [ids[0]] + known1;
      } else {
        assert known == known1;
      }
      forall k | 0 <= k < |known| ensures known[k] in table {
        assert known[k] in known;
      }
    }
  }

  // ---------------------------------------------------------------------
  // Records
  // ---------------------------------------------------------------------

  /** `Math.round(x * 10) / 10`, on exact reals: half-way cases round up. */
  function RoundToTenth(x: real): (r: real)
    ensures -0.05 < r - x <= 0.05
    ensures (r * 10.0).Floor as real == r * 10.0
  {
    var n := (x * 10.0 + 0.5).Floor;
    n as real / 10.0
  }

  /** `transformMovie(tmdbMovie, genres)` */
  function TransformMovie(m: TmdbMovie, genres: seq<TmdbGenre> := []): (r: Movie)
    ensures |r.genres| <= |m.genreIds|
    ensures forall name :: name in r.genres ==>
      exists g :: g in genres && g.id in m.genreIds && g.name == name
    ensures genres == [] ==> r.genres == []
  {
    var table := GenreTable(genres);
    var names := GenreNames(m.genreIds, table);
    assert genres == [] ==> names == [] by {
      if genres == [] {
        GenreNamesEmptyTable(m.genreIds);
      }
    }
    assert forall name :: name in names ==> exists g :: g in genres && g.id in m.genreIds && g.name == name by {
      forall name | name in names ensures exists g :: g in genres && g.id in m.genreIds && g.name == name {
        GenreNamesFrom(m.genreIds, table, name);
        var id :| id in m.genreIds && id in table && table[id] == name;
        GenreTableLookup(genres, id);
        var i :| 0 <= i < |genres| && genres[i].id == id && table[id] == genres[i].name
          && forall j :: i < j < |genres| ==> genres[j].id != id;
        assert genres[i] in genres;
      }
    }
    Movie(m.id, m.title, m.originalTitle, m.overview, m.posterPath, m.backdropPath, m.releaseDate,
          ExtractYear(m.releaseDate), names, RoundToTenth(m.voteAverage), m.voteCount,
          m.popularity, m.adult, m.originalLanguage)
  }

  /** `transformMovie` copies these fields unchanged and derives the year from the date. */
  lemma TransformMovieCopies(m: TmdbMovie, genres: seq<TmdbGenre>)
    ensures var r := TransformMovie(m, genres);
      && r.id == m.id && r.title == m.title && r.originalTitle == m.originalTitle
      && r.overview == m.overview && r.posterPath == m.posterPath && r.backdropPath == m.backdropPath
      && r.releaseDate == m.releaseDate && r.voteCount == m.voteCount && r.popularity == m.popularity
      && r.isAdult == m.adult && r.language == m.originalLanguage
      && r.releaseYear == ExtractYear(m.releaseDate)
      && r.genres == GenreNames(m.genreIds, GenreTable(genres))
      && r.rating == RoundToTenth(m.voteAverage)
  {
  }

  /** The credits' copy of a cast member. */
  function CastOf(c: TmdbCast): Cast {
    Cast(c.id, c.name, c.character, c.profilePath, c.order)
  }

  function CrewOf(c: TmdbCrew): Crew {
    Crew(c.id, c.name, c.job, c.department, c.profilePath)
  }

  function VideoOf(v: TmdbVideo): Video {
    Video(v.id, v.key, v.name, v.site, v.videoType, v.official, v.publishedAt)
  }

  /** `transformCast(cast)` */
  function TransformCast(cast: seq<TmdbCast>): (r: seq<Cast>)
    ensures |r| == |cast|
    ensures forall i :: 0 <= i < |cast| ==> r[i] == CastOf(cast[i])
  {
    seq(|cast|, i requires 0 <= i < |cast| => CastOf(cast[i]))
  }

  /** `transformCrew(crew)` */
  function TransformCrew(crew: seq<TmdbCrew>): (r: seq<Crew>)
    ensures |r| == |crew|
    ensures forall i :: 0 <= i < |crew| ==> r[i] == CrewOf(crew[i])
  {
    seq(|crew|, i requires 0 <= i < |crew| => CrewOf(crew[i]))
  }

  /** `transformVideos(videos)` */
  function TransformVideos(videos: seq<TmdbVideo>): (r: seq<Video>)
    ensures |r| == |videos|
    ensures forall i :: 0 <= i < |videos| ==> r[i] == VideoOf(videos[i])
  {
    seq(|videos|, i requires 0 <= i < |videos| => VideoOf(videos[i]))
  }

  function GenreName(g: TmdbGenre): string { g.name }

  function CollectionOf(c: Option<TmdbCollection>): Option<Collection> {
    if c.Some? then Some(Collection(c.value.id, c.value.name, c.value.posterPath, c.value.backdropPath)) else None
  }

  /** `transformMovieDetail(detail, cast, crew, videos)`; omitted lists are empty. */
  function TransformMovieDetail(d: TmdbMovieDetail, cast: seq<TmdbCast> := [], crew: seq<TmdbCrew> := [],
                                videos: seq<TmdbVideo> := []): (r: MovieDetail)
    ensures |r.genres| == |d.genres| && forall i :: 0 <= i < |d.genres| ==> r.genres[i] == d.genres[i].name
    ensures r.collection.None? <==> d.belongsToCollection.None?
    ensures r.collection.Some? ==>
      var c := d.belongsToCollection.value;
      r.collection.value == Collection(c.id, c.name, c.posterPath, c.backdropPath)
    ensures r.cast == TransformCast(cast) && r.crew == TransformCrew(crew) && r.videos == TransformVideos(videos)
    ensures |r.spokenLanguages| == |d.spokenLanguages|
      && forall i :: 0 <= i < |d.spokenLanguages| ==> r.spokenLanguages[i] == d.spokenLanguages[i].englishName
    ensures |r.productionCompanies| == |d.productionCompanies|
      && forall i :: 0 <= i < |d.productionCompanies| ==> r.productionCompanies[i] == d.productionCompanies[i].name
    ensures |r.productionCountries| == |d.productionCountries|
      && forall i :: 0 <= i < |d.productionCountries| ==> r.productionCountries[i] == d.productionCountries[i].name
    ensures r.runtime == d.runtime && r.budget == d.budget && r.revenue == d.revenue && r.status == d.status
      && r.tagline == d.tagline && r.homepage == d.homepage && r.imdbId == d.imdbId
    ensures r.id == d.id && r.title == d.title && r.originalTitle == d.originalTitle && r.overview == d.overview
      && r.posterPath == d.posterPath && r.backdropPath == d.backdropPath && r.releaseDate == d.releaseDate
      && r.releaseYear == ExtractYear(d.releaseDate) && r.rating == RoundToTenth(d.voteAverage)
      && r.voteCount == d.voteCount && r.popularity == d.popularity && r.isAdult == d.adult
      && r.language == d.originalLanguage
  {
    MovieDetail(
      d.id, d.title, d.originalTitle, d.overview, d.posterPath, d.backdropPath, d.releaseDate,
      ExtractYear(d.releaseDate),
      seq(|d.genres|, i requires 0 <= i < |d.genres| => d.genres[i].name),
      RoundToTenth(d.voteAverage), d.voteCount, d.popularity, d.adult, d.originalLanguage,
      d.runtime, d.budget, d.revenue, d.status, d.tagline, d.homepage, d.imdbId,
      seq(|d.spokenLanguages|, i requires 0 <= i < |d.spokenLanguages| => d.spokenLanguages[i].englishName),
      seq(|d.productionCompanies|, i requires 0 <= i < |d.productionCompanies| => d.productionCompanies[i].name),
      seq(|d.productionCountries|, i requires 0 <= i < |d.productionCountries| => d.productionCountries[i].name),
      CollectionOf(d.belongsToCollection),
      TransformCast(cast), TransformCrew(crew), TransformVideos(videos))
  }

  /** The list-endpoint form of a detail record: its genres as ids. */
  function ListForm(d: TmdbMovieDetail): TmdbMovie {
    TmdbMovie(d.id, d.title, d.originalTitle, d.overview, d.posterPath, d.backdropPath, d.releaseDate,
              seq(|d.genres|, i requires 0 <= i < |d.genres| => d.genres[i].id),
              d.adult, d.originalLanguage, d.popularity, d.voteAverage, d.voteCount, d.video)
  }

  /**
   * The two transformers agree: when a detail's genre ids are distinct, its
   * `Movie` fields are what `transformMovie` gives for the same record in
   * list form with the detail's genres as the table.
   */
  lemma DetailAgreesWithList(d: TmdbMovieDetail)
    requires forall i, j :: 0 <= i < j < |d.genres| ==> d.genres[i].id != d.genres[j].id
    ensures TransformMovieDetail(d).AsMovie() == TransformMovie(ListForm(d), d.genres)
  {
    var table := GenreTable(d.genres);
    var ids := ListForm(d).genreIds;
    forall k | 0 <= k < |ids| ensures Known(table)(ids[k]) {
      GenreTableDistinct(d.genres, k);
    }
    FilterAll(ids, Known(table));
    GenreNamesOrder(ids, table);
    forall k | 0 <= k < |ids| ensures GenreNames(ids, table)[k] == d.genres[k].name {
      GenreTableDistinct(d.genres, k);
    }
    assert TransformMovieDetail(d).genres == GenreNames(ids, table);
  }
}
