/**
 * The poster card for a movie or a show (components/features/media/MediaCard.tsx):
 * the card's type, rating, link and badges, the detail query it prefetches
 * on hover, and the favourite button with its toast.
 */
module MediaCard {
  import opened Common
  import opened MovieTypes
  import opened TvTypes
  import opened MediaTypes
  import QueryKeys
  import Images
  import ToastContext

  /** `isMovie(media) ? 'movie' : 'tv'` */
  function CardType(o: MediaObject): (t: MediaType)
    ensures t == MovieType <==> IsMovie(o)
  {
    if IsMovie(o) then MovieType else TvType
  }

  /** A JavaScript number is truthy when it is there and not zero. */
  predicate TruthyNumber(f: Field<real>) {
    f.Val? && f.value != 0.0
  }

  /** `a || b` on a number field and a fallback. */
  function OrNumber(a: Field<real>, fallback: real): real {
    if TruthyNumber(a) then a.value else fallback
  }

  /** `isMovie ? rating || vote_average || 0 : vote_average || 0` */
  function Rating(o: MediaObject): (r: real)
    ensures r == 0.0 || (IsMovie(o) && TruthyNumber(o.rating) && r == o.rating.value)
                     || (TruthyNumber(o.vote_average) && r == o.vote_average.value)
  {
    if IsMovie(o) then OrNumber(o.rating, OrNumber(o.vote_average, 0.0))
    else OrNumber(o.vote_average, 0.0)
  }

  /** On the application's values the rating is the movie's own rating or the show's vote average. */
  lemma RatingOnRecords(m: Media)
    ensures m.MovieMedia? ==> Rating(m.Object()) == m.movie.rating
    ensures m.ShowMedia? ==> Rating(m.Object()) == m.show.voteAverage
  {
  }

  /**
   * The card's link: a movie's detail page; for a show the player at the
   * given season and episode when both are given (zero included), else
   * the show's page.
   */
  function CardHref(o: MediaObject, season: Option<int>, episode: Option<int>): string {
    if IsMovie(o) then MoviePath(o.id)
    else if season.Some? && episode.Some? then TvWatchPath(o.id, season.value, episode.value)
    else TvPath(o.id)
  }

  /**
   * A movie card leads under `/movie/`, a show card under its own show
   * page `/tv/<id>`, the player at `/tv/<id>/watch/…` only when both the
   * season and the episode are given; so a movie and a show never share a link.
   */
  lemma CardHrefShape(o: MediaObject, season: Option<int>, episode: Option<int>, p: MediaObject)
    ensures IsMovie(o) ==> CardHref(o, season, episode) == MoviePath(o.id)
    ensures !IsMovie(o) ==> TvPath(o.id) <= CardHref(o, season, episode)
    ensures !IsMovie(o) ==>
      (CardHref(o, season, episode) == TvPath(o.id) <==> season.None? || episode.None?)
    ensures IsMovie(o) && !IsMovie(p) ==> CardHref(o, season, episode) != CardHref(p, season, episode)
  {
    var h := CardHref(o, season, episode);
    if !IsMovie(o) && season.Some? && episode.Some? {
      assert h == TvPath(o.id) + "/watch/" + IntToString(season.value) + "/" + IntToString(episode.value);
      assert |h| > |TvPath(o.id)|;
    }
    if IsMovie(o) && !IsMovie(p) {
      assert h[1] == 'm';
      assert CardHref(p, season, episode)[1] == 't';
    }
  }

  /** The season and episode badge `S{season} E{episode}`, on a show with both given. */
  function EpisodeBadge(o: MediaObject, season: Option<int>, episode: Option<int>): (b: Option<string>)
    ensures b.Some? <==> IsTVShow(o) && season.Some? && episode.Some?
  {
    if IsTVShow(o) && season.Some? && episode.Some? then
      Some("S" + IntToString(season.value) + " E" + IntToString(episode.value))
    else None
  }

  /** The poster: the media's poster path at the large size, when it has one. */
  function CardPosterUrl(o: MediaObject): (r: Option<string>)
    ensures r.None? <==> GetMediaPosterPath(o).None?
  {
    var p := GetMediaPosterPath(o);
    if p.None? then None else Images.PosterUrl(p, Images.PosterLg)
  }

  /** The hover prefetch: a day's freshness, in milliseconds. */
  const PrefetchStaleTime: int := 1000 * 60 * 60 * 24

  /** `handlePrefetch`: the detail query warmed for a movie or a show; nothing for anything else. */
  function PrefetchKey(o: MediaObject): Option<QueryKeys.Key> {
    if IsMovie(o) then Some(QueryKeys.MovieKey(QueryKeys.MovieDetail(o.id)))
    else if IsTVShow(o) then Some(QueryKeys.TvKey(QueryKeys.TvDetail(o.id)))
    else None
  }

  /**
   * Hovering warms exactly the entry a detail page reads: the key decodes
   * to the detail request for this id, of the card's kind.
   */
  lemma PrefetchKeyDecodes(m: Media)
    ensures PrefetchKey(m.Object()).Some?
    ensures m.MovieMedia? ==>
      QueryKeys.ParseMovieKey(PrefetchKey(m.Object()).value) == Some(QueryKeys.MovieDetail(m.Id()))
    ensures m.ShowMedia? ==>
      QueryKeys.ParseTvKey(PrefetchKey(m.Object()).value) == Some(QueryKeys.TvDetail(m.Id()))
  {
    QueryKeys.MovieKeyRoundTrip(QueryKeys.MovieDetail(m.Id()));
    QueryKeys.TvKeyRoundTrip(QueryKeys.TvDetail(m.Id()));
  }

  // ---------------------------------------------------------------------
  // The favourite button
  // ---------------------------------------------------------------------

  /** A favourite item: an id together with its kind. */
  datatype FavoriteItem = FavoriteItem(id: int, kind: MediaType)

  /** `isFavoriteItem(id, type)` over a set of favourite items. */
  predicate IsFavoriteItem(favorites: set<FavoriteItem>, item: FavoriteItem) {
    item in favorites
  }

  /** `toggleFavoriteItem(id, type)`: in becomes out and out becomes in. */
  function ToggleFavoriteItem(favorites: set<FavoriteItem>, item: FavoriteItem): set<FavoriteItem> {
    if item in favorites then favorites - {item} else favorites + {item}
  }

  /** The toast the click raises: its type, title and description. */
  datatype FavoriteToast = FavoriteToast(kind: ToastContext.ToastType, title: string, description: string)

  /**
   * `handleFavoriteClick`: the item is toggled, and the toast reports the
   * change, judged by whether the item was a favourite before the click.
   */
  function FavoriteClick(favorites: set<FavoriteItem>, o: MediaObject): (set<FavoriteItem>, FavoriteToast) {
    var item := FavoriteItem(o.id, CardType(o));
    var title := GetMediaTitle(o);
    var toast :=
      if IsFavoriteItem(favorites, item) then
        FavoriteToast(ToastContext.Info, "Removed from My List", title + " has been removed from your list")
      else
        FavoriteToast(ToastContext.Success, "Added to My List", title + " has been added to your list");
    (ToggleFavoriteItem(favorites, item), toast)
  }

  /**
   * A click flips the card's item and leaves every other favourite alone;
   * the toast says "Removed" exactly when the item was a favourite; a
   * second click restores the set.
   */
  lemma FavoriteClickFlips(favorites: set<FavoriteItem>, o: MediaObject, other: FavoriteItem)
    ensures var (after, toast) := FavoriteClick(favorites, o);
      var item := FavoriteItem(o.id, CardType(o));
      && (item in after <==> item !in favorites)
      && (other != item ==> (other in after <==> other in favorites))
      && (toast.title == "Removed from My List" <==> item in favorites)
      && (toast.kind == ToastContext.Info <==> item in favorites)
      && FavoriteClick(after, o).0 == favorites
  {
  }

  // ---------------------------------------------------------------------
  // The secondary line
  // ---------------------------------------------------------------------

  /**
   * `getAdditionalInfo()`: for a movie the release date whose year is shown
   * (the date itself, since date parsing is not modelled), a show's season
   * count, or nothing.
   */
  datatype AdditionalInfo = ReleaseYearOf(date: string) | SeasonCount(text: string) | NoInfo

  function GetAdditionalInfo(o: MediaObject): AdditionalInfo {
    if IsMovie(o) then
      var d := GetMediaReleaseDate(o);
      if d != "" then ReleaseYearOf(d) else NoInfo
    else if IsTVShow(o) then
      if o.number_of_seasons.Val? && o.number_of_seasons.value != 0 then
        var n := o.number_of_seasons.value;
        SeasonCount(IntToString(n) + " Season" + (if n > 1 then "s" else ""))
      else NoInfo
    else NoInfo
  }

  /**
   * A show with a positive season count shows "<n> Season", plural from
   * two on, and the number reads back from the text; a zero or unset count
   * shows nothing.
   */
  lemma SeasonCountText(s: TvShow)
    ensures var info := GetAdditionalInfo(ShowObject(s));
      && (s.numberOfSeasons == 0 ==> info == NoInfo)
      && (s.numberOfSeasons == 1 ==> info == SeasonCount("1 Season"))
      && (s.numberOfSeasons > 1 ==> info == SeasonCount(NatToString(s.numberOfSeasons) + " Seasons"))
      && (s.numberOfSeasons > 0 ==> info.SeasonCount? && ParseDigits(LeadingDigits(info.text)) == s.numberOfSeasons)
  {
    var n := s.numberOfSeasons;
    if n > 0 {
      var tail := " Season" + (if n > 1 then "s" else "");
      assert GetAdditionalInfo(ShowObject(s)).text == NatToString(n) + tail;
      LeadingDigitsOfDigits(NatToString(n), tail);
      ParseNatToString(n);
    }
  }
}
