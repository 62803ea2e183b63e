/**
 * The user-preferences store (stores/userPreferencesStore.ts): a favourites
 * list and a watch history, most recent first and capped at 50 entries.
 * Every action replaces a field with a new list; the new lists are given by
 * the functions below, and the lemmas state what those lists are.
 */
module UserPreferencesStore {
  import opened Common
  import opened MovieTypes

  /** One entry of the watch history. */
  datatype WatchProgress = WatchProgress(
    movieId: int,
    progress: real,
    timestamp: int,
    title: string,
    posterPath: Option<string>)

  /** `.slice(0, 50)` on every history update. */
  const MaxHistory: nat := 50

  // ---------------------------------------------------------------------
  // Favourites
  // ---------------------------------------------------------------------

  /** `favorites.some((fav) => fav.id === id)` */
  predicate HasFavorite(favs: seq<Movie>, id: int) {
    exists i :: 0 <= i < |favs| && favs[i].id == id
  }

  /** No two favourites share an id. */
  ghost predicate DistinctFavorites(favs: seq<Movie>) {
    forall i, j :: 0 <= i < j < |favs| ==> favs[i].id != favs[j].id
  }

  /** The list `addFavorite(movie)` leaves behind. */
  function WithFavorite(favs: seq<Movie>, movie: Movie): seq<Movie> {
    if HasFavorite(favs, movie.id) then favs else [movie] + favs
  }

  /** The list `removeFavorite(id)` leaves behind. */
  function WithoutFavorite(favs: seq<Movie>, id: int): seq<Movie> {
    Filter(favs, (m: Movie) => m.id != id)
  }

  /** The list `toggleFavorite(movie)` leaves behind. */
  function ToggledFavorite(favs: seq<Movie>, movie: Movie): seq<Movie> {
    if HasFavorite(favs, movie.id) then WithoutFavorite(favs, movie.id) else WithFavorite(favs, movie)
  }

  /** Adding a movie whose id is present changes nothing; otherwise it goes in front. */
  lemma AddFavoriteCases(favs: seq<Movie>, movie: Movie)
    ensures HasFavorite(favs, movie.id) ==> WithFavorite(favs, movie) == favs
    ensures !HasFavorite(favs, movie.id) ==> WithFavorite(favs, movie) == [movie] + favs
    ensures HasFavorite(WithFavorite(favs, movie), movie.id)
  {
    if !HasFavorite(favs, movie.id) {
      assert ([movie] + favs)[0] == movie;
    }
  }

  /** Adding keeps favourite ids pairwise distinct. */
  lemma AddFavoriteDistinct(favs: seq<Movie>, movie: Movie)
    requires DistinctFavorites(favs)
    ensures DistinctFavorites(WithFavorite(favs, movie))
  {
    if !HasFavorite(favs, movie.id) {
      var r := [movie] + favs;
      forall i, j | 0 <= i < j < |r| ensures r[i].id != r[j].id {
        if i == 0 {
          assert r[j] == favs[j - 1];
        } else {
          assert r[i] == favs[i - 1] && r[j] == favs[j - 1];
        }
      }
    }
  }

  /** Adding the same movie twice is adding it once. */
  lemma AddFavoriteIdempotent(favs: seq<Movie>, movie: Movie)
    ensures WithFavorite(WithFavorite(favs, movie), movie) == WithFavorite(favs, movie)
  {
    AddFavoriteCases(favs, movie);
  }

  /**
   * Removing deletes every favourite with the id and keeps exactly the
   * others; being a filter, it keeps their order.
   */
  lemma RemoveFavoriteContents(favs: seq<Movie>, id: int, m: Movie)
    ensures !HasFavorite(WithoutFavorite(favs, id), id)
    ensures m in WithoutFavorite(favs, id) <==> m in favs && m.id != id
    ensures !HasFavorite(favs, id) ==> WithoutFavorite(favs, id) == favs
  {
    FilterKeeps(favs, (x: Movie) => x.id != id, m);
    var r := WithoutFavorite(favs, id);
    forall i | 0 <= i < |r| ensures r[i].id != id {
      assert r[i] in r;
    }
    if !HasFavorite(favs, id) {
      FilterAll(favs, (x: Movie) => x.id != id);
    }
  }

  /** Removing keeps favourite ids pairwise distinct. */
  lemma {:induction false} RemoveFavoriteDistinct(favs: seq<Movie>, id: int)
    requires DistinctFavorites(favs)
    ensures DistinctFavorites(WithoutFavorite(favs, id))
    decreases |favs|
  {
    if favs != [] {
      var p := (x: Movie) => x.id != id;
      assert DistinctFavorites(favs[1..]);
      RemoveFavoriteDistinct(favs[1..], id);
      var rest := WithoutFavorite(favs[1..], id);
      forall j | 0 <= j < |rest| ensures rest[j].id != favs[0].id {
        assert rest[j] in rest;
        var k :| 0 <= k < |favs[1..]| && favs[1..][k] == rest[j];
        assert favs[k + 1] == rest[j];
      }
    }
  }

  /** `toggleFavorite` flips `isFavorite` for the movie's id. */
  lemma ToggleFlips(favs: seq<Movie>, movie: Movie)
    ensures HasFavorite(ToggledFavorite(favs, movie), movie.id) == !HasFavorite(favs, movie.id)
  {
    AddFavoriteCases(favs, movie);
    RemoveFavoriteContents(favs, movie.id, movie);
  }

  // ---------------------------------------------------------------------
  // Watch history
  // ---------------------------------------------------------------------

  predicate HasEntry(h: seq<WatchProgress>, id: int) {
    exists i :: 0 <= i < |h| && h[i].movieId == id
  }

  /** At most one history entry per movie. */
  ghost predicate DistinctEntries(h: seq<WatchProgress>) {
    forall i, j :: 0 <= i < j < |h| ==> h[i].movieId != h[j].movieId
  }

  /** `watchHistory.filter((item) => item.movieId !== id)` */
  function WithoutEntry(h: seq<WatchProgress>, id: int): seq<WatchProgress> {
    Filter(h, (w: WatchProgress) => w.movieId != id)
  }

  /** The history `updateWatchProgress` leaves behind once it has built `entry`. */
  function HistoryWith(h: seq<WatchProgress>, entry: WatchProgress): seq<WatchProgress> {
    if HasEntry(h, entry.movieId) then Take([entry] + WithoutEntry(h, entry.movieId), MaxHistory)
    else Take([entry] + h, MaxHistory)
  }

  /** `watchHistory.find((item) => item.movieId === id)`: the first entry for the id. */
  function FindEntry(h: seq<WatchProgress>, id: int): (r: Option<WatchProgress>)
    ensures r.Some? <==> HasEntry(h, id)
    ensures r.Some? ==> r.value.movieId == id && r.value in h
    ensures r.Some? ==> exists i :: 0 <= i < |h| && h[i] == r.value
                                && forall j :: 0 <= j < i ==> h[j].movieId != id
    decreases |h|
  {
    if h == [] then None
    else if h[0].movieId == id then Some(h[0])
    else
      var r := FindEntry(h[1..], id);
      assert r.Some? ==> exists i :: 0 <= i < |h[1..]| && h[1..][i] == r.value
                                 && forall j :: 0 <= j < i ==> h[1..][j].movieId != id;
      assert forall i :: 0 <= i < |h[1..]| ==> h[1..][i] == h[i + 1];
      assert r.Some? ==> exists i :: 1 <= i < |h| && h[i] == r.value
                                 && forall j :: 0 <= j < i ==> h[j].movieId != id;
      r
  }

  /**
   * Both branches of `updateWatchProgress` build the same list: the new
   * entry, then the old entries of other movies in their order, cut to 50.
   */
  lemma HistoryWithUniform(h: seq<WatchProgress>, entry: WatchProgress)
    ensures HistoryWith(h, entry) == Take([entry] + WithoutEntry(h, entry.movieId), MaxHistory)
  {
    if !HasEntry(h, entry.movieId) {
      FilterAll(h, (w: WatchProgress) => w.movieId != entry.movieId);
    }
  }

  /**
   * The new entry is at the head, stored exactly as passed (no clamping of
   * its progress), it is what `getWatchProgress` returns for its movie
   * afterwards, the history never exceeds 50 entries, and the rest is
   * the old history without that movie, in order.
   */
  lemma HistoryWithHead(h: seq<WatchProgress>, entry: WatchProgress)
    ensures var r := HistoryWith(h, entry);
      1 <= |r| <= MaxHistory && r[0] == entry
      && FindEntry(r, entry.movieId) == Some(entry)
      && r[1..] == Take(WithoutEntry(h, entry.movieId), MaxHistory - 1)
  {
    HistoryWithUniform(h, entry);
    var w := WithoutEntry(h, entry.movieId);
    var r := HistoryWith(h, entry);
    assert r == ([entry] + w)[..|r|];
    assert r[1..] == w[..|r| - 1];
  }

  /** Updating keeps at most one entry per movie. */
  lemma HistoryWithDistinct(h: seq<WatchProgress>, entry: WatchProgress)
    requires DistinctEntries(h)
    ensures DistinctEntries(HistoryWith(h, entry))
  {
    HistoryWithUniform(h, entry);
    var p := (w: WatchProgress) => w.movieId != entry.movieId;
    var w := WithoutEntry(h, entry.movieId);
    WithoutEntryDistinct(h, entry.movieId);
    var full := [entry] + w;
    var r := HistoryWith(h, entry);
    forall i, j | 0 <= i < j < |r| ensures r[i].movieId != r[j].movieId {
      assert r[j] == full[j] == w[j - 1];
      assert w[j - 1] in w;
      if i > 0 {
        assert r[i] == w[i - 1];
      }
    }
  }

  /** Removal keeps at most one entry per movie, and leaves none for the removed one. */
  lemma {:induction false} WithoutEntryDistinct(h: seq<WatchProgress>, id: int)
    requires DistinctEntries(h)
    ensures DistinctEntries(WithoutEntry(h, id))
    ensures !HasEntry(WithoutEntry(h, id), id)
    decreases |h|
  {
    var r := WithoutEntry(h, id);
    if h != [] {
      assert DistinctEntries(h[1..]);
      WithoutEntryDistinct(h[1..], id);
      var rest := WithoutEntry(h[1..], id);
      forall j | 0 <= j < |rest| ensures rest[j].movieId != h[0].movieId {
        assert rest[j] in rest;
        var k :| 0 <= k < |h[1..]| && h[1..][k] == rest[j];
        assert h[k + 1] == rest[j];
      }
    }
    forall i | 0 <= i < |r| ensures r[i].movieId != id {
      assert r[i] in r;
    }
  }

  /**
   * A movie not yet in a full history of 50 pushes out exactly the last
   * (oldest) entry.
   */
  lemma HistoryWithFull(h: seq<WatchProgress>, entry: WatchProgress)
    requires |h| == MaxHistory && !HasEntry(h, entry.movieId)
    ensures HistoryWith(h, entry) == [entry] + h[..MaxHistory - 1]
  {
    assert ([entry] + h)[..MaxHistory] == [entry] + h[..MaxHistory - 1];
  }

  /** After `removeFromHistory(id)` no entry for the id remains; other entries stay. */
  lemma RemoveEntryContents(h: seq<WatchProgress>, id: int, w: WatchProgress)
    ensures FindEntry(WithoutEntry(h, id), id) == None
    ensures w in WithoutEntry(h, id) <==> w in h && w.movieId != id
  {
    FilterKeeps(h, (x: WatchProgress) => x.movieId != id, w);
    var r := WithoutEntry(h, id);
    forall i | 0 <= i < |r| ensures r[i].movieId != id {
      assert r[i] in r;
    }
  }

  /** The store's state. Every action below replaces one of the two fields. */
  class Store {
    var favorites: seq<Movie>
    var watchHistory: seq<WatchProgress>

    /** What every action keeps: distinct favourites, one entry per movie, at most 50. */
    ghost predicate Valid()
      reads this
    {
      DistinctFavorites(favorites) && DistinctEntries(watchHistory) && |watchHistory| <= MaxHistory
    }

    constructor ()
      ensures Valid() && favorites == [] && watchHistory == []
    {
      favorites := [];
      watchHistory := [];
    }

    method AddFavorite(movie: Movie)
      requires Valid()
      modifies this
      ensures Valid()
      ensures favorites == WithFavorite(old(favorites), movie)
      ensures watchHistory == old(watchHistory)
    {
      AddFavoriteDistinct(favorites, movie);
      if !HasFavorite(favorites, movie.id) {
        favorites := [movie] + favorites;
      }
    }

    method RemoveFavorite(id: int)
      requires Valid()
      modifies this
      ensures Valid()
      ensures favorites == WithoutFavorite(old(favorites), id)
      ensures watchHistory == old(watchHistory)
    {
      RemoveFavoriteDistinct(favorites, id);
      favorites := WithoutFavorite(favorites, id);
    }

    /** `isFavorite(id)` */
    predicate IsFavorite(id: int)
      reads this
      ensures IsFavorite(id) <==> exists m :: m in favorites && m.id == id
    {
      HasFavorite(favorites, id)
    }

    method ToggleFavorite(movie: Movie)
      requires Valid()
      modifies this
      ensures Valid()
      ensures favorites == ToggledFavorite(old(favorites), movie)
      ensures IsFavorite(movie.id) == !old(IsFavorite(movie.id))
      ensures watchHistory == old(watchHistory)
    {
      ToggleFlips(favorites, movie);
      if IsFavorite(movie.id) {
        RemoveFavorite(movie.id);
      } else {
        AddFavorite(movie);
      }
    }

    /** `updateWatchProgress`; `now` stands for `Date.now()`. */
    method UpdateWatchProgress(movieId: int, progress: real, title: string, posterPath: Option<string>, now: int)
      requires Valid()
      modifies this
      ensures Valid()
      ensures watchHistory == HistoryWith(old(watchHistory), WatchProgress(movieId, progress, now, title, posterPath))
      ensures favorites == old(favorites)
    {
      var entry := WatchProgress(movieId, progress, now, title, posterPath);
      HistoryWithDistinct(watchHistory, entry);
      HistoryWithHead(watchHistory, entry);
      if FindEntry(watchHistory, movieId).Some? {
        watchHistory := Take([entry] + WithoutEntry(watchHistory, movieId), MaxHistory);
      } else {
        watchHistory := Take([entry] + watchHistory, MaxHistory);
      }
    }

    /** `getWatchProgress(id)` */
    function GetWatchProgress(id: int): (r: Option<WatchProgress>)
      reads this
      ensures r.Some? <==> exists w :: w in watchHistory && w.movieId == id
      ensures r.Some? ==> r.value in watchHistory && r.value.movieId == id
    {
      FindEntry(watchHistory, id)
    }

    method RemoveFromHistory(id: int)
      requires Valid()
      modifies this
      ensures Valid()
      ensures watchHistory == WithoutEntry(old(watchHistory), id)
      ensures favorites == old(favorites)
    {
      WithoutEntryDistinct(watchHistory, id);
      watchHistory := WithoutEntry(watchHistory, id);
    }

    method ClearWatchHistory()
      requires Valid()
      modifies this
      ensures Valid()
      ensures watchHistory == [] && favorites == old(favorites)
    {
      watchHistory := [];
    }
  }
}
