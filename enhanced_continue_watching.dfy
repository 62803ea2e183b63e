/**
 * The movie-and-show "Continue Watching" derivation
 * (hooks/useEnhancedContinueWatching.ts): the same selection as the
 * movie-only hook, over continue-watching entries and their `lastWatched`
 * instant, one detail query per entry (a movie detail or a show), and one
 * item per query that returned data.
 */
module EnhancedContinueWatching {
  import opened Common
  import opened MovieTypes
  import opened TvTypes
  import opened MediaTypes
  import opened QueryKeys
  import opened ContinueWatching

  /** What a detail query returns: `getMovieDetails(id)` for a movie, `getTVShow(id)` for a show. */
  datatype MediaDetail = MovieData(detail: MovieDetail) | ShowData(show: TvShow)

  /** `EnhancedContinueWatchingItem`; the TV-only fields are `None` when absent. */
  datatype EnhancedItem = EnhancedItem(
    id: int,
    kind: MediaType,
    media: Media,
    progress: real,
    timestamp: int,
    season: Option<int>,
    episode: Option<int>,
    episodeTitle: Option<string>,
    nextEpisode: Option<EpisodeRef>)

  datatype EnhancedRow = EnhancedRow(items: seq<EnhancedItem>, isLoading: bool, hasError: bool)

  function ItemProgress(e: ContinueWatchingItem): real { e.progress }
  function ItemTime(e: ContinueWatchingItem): int { e.lastWatched }

  /** `incompleteItems` */
  function IncompleteItems(entries: seq<ContinueWatchingItem>): seq<ContinueWatchingItem> {
    SelectRecent(entries, ItemProgress, ItemTime)
  }

  /** The query key of an entry: `movieKeys.detail(id)` or the literal `['tv', 'detail', id]`. */
  function DetailKey(e: ContinueWatchingItem): Key {
    if e.kind == MovieType then MovieKey(MovieQuery.MovieDetail(e.id)) else TvDetailLiteral(e.id)
  }

  /**
   * The show key is `tvKeys.detail(id)`, so this row shares its cache
   * entries with the show pages; and two entries get one key only when
   * they are the same title (same kind and id).
   */
  lemma DetailKeyShared(e1: ContinueWatchingItem, e2: ContinueWatchingItem)
    ensures DetailKey(e1) == AppKey(if e1.kind == MovieType then Movies(MovieQuery.MovieDetail(e1.id)) else Tv(TvDetail(e1.id)))
    ensures DetailKey(e1) == DetailKey(e2) <==> e1.kind == e2.kind && e1.id == e2.id
  {
    TvLiterals(e1.id, Week, 1, TvAll);
    TvLiterals(e2.id, Week, 1, TvAll);
    var q1 := if e1.kind == MovieType then Movies(MovieQuery.MovieDetail(e1.id)) else Tv(TvDetail(e1.id));
    var q2 := if e2.kind == MovieType then Movies(MovieQuery.MovieDetail(e2.id)) else Tv(TvDetail(e2.id));
    AppKeyInjective(q1, q2);
  }

  /** The media value of an item: a movie detail reduced to a `Movie`, a show as fetched. */
  function MediaOf(d: MediaDetail): Media {
    match d
    case MovieData(m) => MovieMedia(m.AsMovie())
    case ShowData(s) => ShowMedia(s)
  }

  /** The item for a selected entry, branching on the entry's type as the source does. */
  function MakeEnhancedItem(w: ContinueWatchingItem, d: MediaDetail): EnhancedItem {
    if w.kind == MovieType then
      EnhancedItem(w.id, MovieType, MediaOf(d), w.progress, w.lastWatched, None, None, None, None)
    else
      EnhancedItem(w.id, TvType, MediaOf(d), w.progress, w.lastWatched,
                   w.season, w.episode, w.episodeTitle, w.nextEpisode)
  }

  /** Each query returned the kind its `queryFn` fetches for the entry at its index. */
  predicate QueriesMatch(sel: seq<ContinueWatchingItem>, qs: seq<QueryState<MediaDetail>>) {
    |qs| == |sel|
    && forall i :: 0 <= i < |qs| && qs[i].data.Some? ==> (qs[i].data.value.MovieData? <==> sel[i].kind == MovieType)
  }

  /** `useEnhancedContinueWatching()` given the state of its queries. */
  function UseEnhancedContinueWatching(entries: seq<ContinueWatchingItem>, qs: seq<QueryState<MediaDetail>>): EnhancedRow
    requires |qs| == |IncompleteItems(entries)|
  {
    var sel := IncompleteItems(entries);
    EnhancedRow(Assemble(sel, qs, MakeEnhancedItem), IsLoading(sel, qs), HasError(qs))
  }

  /** A movie item has no episode fields; a show item copies them unchanged from its entry. */
  predicate ItemOf(item: EnhancedItem, e: ContinueWatchingItem) {
    && item.id == e.id && item.kind == e.kind
    && item.progress == e.progress && item.timestamp == e.lastWatched
    && (e.kind == MovieType ==>
          item.season.None? && item.episode.None? && item.episodeTitle.None? && item.nextEpisode.None?)
    && (e.kind == TvType ==>
          item.season == e.season && item.episode == e.episode
          && item.episodeTitle == e.episodeTitle && item.nextEpisode == e.nextEpisode)
  }

  /** The item was built from one of the stored entries. */
  predicate FromEntry(item: EnhancedItem, entries: seq<ContinueWatchingItem>) {
    exists e :: e in entries && ItemOf(item, e)
  }

  /** An item copies its entry's fields, and holds a movie exactly when it was fetched as one. */
  lemma MakeEnhancedItemOf(w: ContinueWatchingItem, d: MediaDetail)
    ensures ItemOf(MakeEnhancedItem(w, d), w)
    ensures (d.MovieData? <==> w.kind == MovieType) ==>
      (MakeEnhancedItem(w, d).media.MovieMedia? <==> MakeEnhancedItem(w, d).kind == MovieType)
  {
  }

  /** Item `j` of the row comes from an unfinished stored entry, with media of its kind when the queries match. */
  lemma EnhancedItemOfEntry(entries: seq<ContinueWatchingItem>, qs: seq<QueryState<MediaDetail>>, j: nat)
    requires |qs| == |IncompleteItems(entries)|
    requires j < |UseEnhancedContinueWatching(entries, qs).items|
    ensures var item := UseEnhancedContinueWatching(entries, qs).items[j];
      && item.progress < 90.0
      && FromEntry(item, entries)
      && (QueriesMatch(IncompleteItems(entries), qs) ==> (item.media.MovieMedia? <==> item.kind == MovieType))
  {
    var sel := IncompleteItems(entries);
    var items := UseEnhancedContinueWatching(entries, qs).items;
    SelectRecentContents(entries, ItemProgress, ItemTime);
    AssembleSpec(sel, qs, MakeEnhancedItem);
    var k := Kept(qs);
    var i := k[j];
    var e := sel[i];
    assert items[j] == MakeEnhancedItem(e, qs[i].data.value);
    MakeEnhancedItemOf(e, qs[i].data.value);
    assert e in multiset(sel);
    assert e in entries && ItemOf(items[j], e);
  }

  /** Each item comes from an unfinished stored entry, with media of its kind when the queries match. */
  lemma EnhancedItemsOfEntries(entries: seq<ContinueWatchingItem>, qs: seq<QueryState<MediaDetail>>)
    requires |qs| == |IncompleteItems(entries)|
    ensures var row := UseEnhancedContinueWatching(entries, qs);
      && (forall j :: 0 <= j < |row.items| ==> row.items[j].progress < 90.0)
      && (forall j :: 0 <= j < |row.items| ==> FromEntry(row.items[j], entries))
      && (QueriesMatch(IncompleteItems(entries), qs) ==>
            forall j :: 0 <= j < |row.items| ==> (row.items[j].media.MovieMedia? <==> row.items[j].kind == MovieType))
  {
    var row := UseEnhancedContinueWatching(entries, qs);
    forall j | 0 <= j < |row.items|
      ensures row.items[j].progress < 90.0
      ensures FromEntry(row.items[j], entries)
      ensures QueriesMatch(IncompleteItems(entries), qs) ==> (row.items[j].media.MovieMedia? <==> row.items[j].kind == MovieType)
    {
      EnhancedItemOfEntry(entries, qs, j);
    }
  }

  /** The items keep the selection's most-recent-first order. */
  lemma EnhancedItemsOrdered(entries: seq<ContinueWatchingItem>, qs: seq<QueryState<MediaDetail>>)
    requires |qs| == |IncompleteItems(entries)|
    ensures var row := UseEnhancedContinueWatching(entries, qs);
      forall i, j :: 0 <= i < j < |row.items| ==> row.items[i].timestamp >= row.items[j].timestamp
  {
    var sel := IncompleteItems(entries);
    var row := UseEnhancedContinueWatching(entries, qs);
    SelectRecentOrder(entries, ItemProgress, ItemTime);
    AssembleSpec(sel, qs, MakeEnhancedItem);
    var k := Kept(qs);
    forall i, j | 0 <= i < j < |row.items| ensures row.items[i].timestamp >= row.items[j].timestamp {
      assert k[i] < k[j];
    }
  }

  /**
   * The row's items are at most 20, unfinished, ordered most recent first
   * (as the selection is, minus the entries whose query has no data); each
   * is built from a stored entry as `ItemOf` says and, when the queries
   * fetched what their entries ask for, holds media of the entry's kind.
   */
  lemma EnhancedRowProperties(entries: seq<ContinueWatchingItem>, qs: seq<QueryState<MediaDetail>>)
    requires |qs| == |IncompleteItems(entries)|
    ensures var row := UseEnhancedContinueWatching(entries, qs);
      && |row.items| <= MaxItems
      && (forall j :: 0 <= j < |row.items| ==> row.items[j].progress < 90.0)
      && (forall i, j :: 0 <= i < j < |row.items| ==> row.items[i].timestamp >= row.items[j].timestamp)
      && (forall j :: 0 <= j < |row.items| ==> FromEntry(row.items[j], entries))
      && (QueriesMatch(IncompleteItems(entries), qs) ==>
            forall j :: 0 <= j < |row.items| ==> (row.items[j].media.MovieMedia? <==> row.items[j].kind == MovieType))
      && (row.isLoading ==> IncompleteItems(entries) != [])
      && (row.hasError <==> exists i :: 0 <= i < |qs| && qs[i].isError)
  {
    var sel := IncompleteItems(entries);
    SelectRecentContents(entries, ItemProgress, ItemTime);
    AssembleSpec(sel, qs, MakeEnhancedItem);
    EnhancedItemsOfEntries(entries, qs);
    EnhancedItemsOrdered(entries, qs);
  }
}
