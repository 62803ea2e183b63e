/**
 * The rotating banner of trending titles (components/features/media/MediaHero.tsx):
 * the interleaving of the first movies and shows, the carousel index under
 * next, previous, swipes and the rotation timer, and what the banner shows.
 */
module MediaHero {
  import opened Common
  import opened MovieTypes
  import opened TvTypes
  import opened MediaTypes
  import Images

  /** At most this many movies and this many shows are featured. */
  const FeaturedPerKind: nat := 3

  /** `(data?.movies || []).slice(0, 3)` */
  function Featured<T>(data: Option<seq<T>>): (r: seq<T>)
    ensures |r| <= FeaturedPerKind
    ensures data.None? ==> r == []
    ensures data.Some? ==> |r| <= |data.value| && r == data.value[..|r|] && (|data.value| >= 3 ==> |r| == 3)
  {
    Take(data.GetOr([]), FeaturedPerKind)
  }

  // ---------------------------------------------------------------------
  // Interleaving
  // ---------------------------------------------------------------------

  /** What round `i` of the loop pushes from one list. */
  function MovieAt(m: seq<Movie>, i: nat): seq<Media> {
    if i < |m| then [MovieMedia(m[i])] else []
  }

  function ShowAt(t: seq<TvShow>, i: nat): seq<Media> {
    if i < |t| then [ShowMedia(t[i])] else []
  }

  /** The list after the first `n` rounds: each round a movie, then a show, when there is one. */
  function Interleaving(m: seq<Movie>, t: seq<TvShow>, n: nat): seq<Media>
    decreases n
  {
    if n == 0 then [] else Interleaving(m, t, n - 1) + MovieAt(m, n - 1) + ShowAt(t, n - 1)
  }

  /** The movies of a list of items, in order. */
  function MoviesOf(items: seq<Media>): seq<Movie>
    decreases |items|
  {
    if items == [] then []
    else MoviesOf(items[..|items| - 1]) + (if items[|items| - 1].MovieMedia? then [items[|items| - 1].movie] else [])
  }

  /** The shows of a list of items, in order. */
  function ShowsOf(items: seq<Media>): seq<TvShow>
    decreases |items|
  {
    if items == [] then []
    else ShowsOf(items[..|items| - 1]) + (if items[|items| - 1].ShowMedia? then [items[|items| - 1].show] else [])
  }

  lemma {:induction false} ProjectionsConcat(a: seq<Media>, b: seq<Media>)
    ensures MoviesOf(a + b) == MoviesOf(a) + MoviesOf(b)
    ensures ShowsOf(a + b) == ShowsOf(a) + ShowsOf(b)
    decreases |b|
  {
    if b == [] {
      assert a + b == a;
    } else {
      var c := b[..|b| - 1];
      assert (a + b)[..|a + b| - 1] == a + c;
      ProjectionsConcat(a, c);
    }
  }

  /** Later rounds only append. */
  lemma {:induction false} InterleavingPrefix(m: seq<Movie>, t: seq<TvShow>, k: nat, n: nat)
    requires k <= n
    ensures Interleaving(m, t, k) <= Interleaving(m, t, n)
    decreases n
  {
    if k < n {
      InterleavingPrefix(m, t, k, n - 1);
    }
  }

  lemma {:induction false} InterleavingLength(m: seq<Movie>, t: seq<TvShow>, n: nat)
    ensures |Interleaving(m, t, n)| == Min(n, |m|) + Min(n, |t|)
    decreases n
  {
    if n > 0 {
      InterleavingLength(m, t, n - 1);
    }
  }

  /** The movies of one round's push, and its shows. */
  lemma RoundProjections(m: seq<Movie>, t: seq<TvShow>, i: nat)
    ensures MoviesOf(MovieAt(m, i)) == (if i < |m| then [m[i]] else []) && ShowsOf(MovieAt(m, i)) == []
    ensures MoviesOf(ShowAt(t, i)) == [] && ShowsOf(ShowAt(t, i)) == (if i < |t| then [t[i]] else [])
  {
    assert MovieAt(m, i) != [] ==> MovieAt(m, i)[..0] == [];
    assert ShowAt(t, i) != [] ==> ShowAt(t, i)[..0] == [];
  }

  /** Taking one more element, when there is one, extends the prefix by it. */
  lemma TakeStep<T>(s: seq<T>, n: nat)
    requires n > 0
    ensures s[..Min(n - 1, |s|)] + (if n - 1 < |s| then [s[n - 1]] else []) == s[..Min(n, |s|)]
  {
    if n - 1 < |s| {
      assert s[..n] == s[..n - 1] + [s[n - 1]];
    }
  }

  /** One round's effect on the projections. */
  lemma RoundMovies(prev: seq<Media>, m: seq<Movie>, t: seq<TvShow>, i: nat)
    ensures MoviesOf(prev + MovieAt(m, i) + ShowAt(t, i)) == MoviesOf(prev) + (if i < |m| then [m[i]] else [])
  {
    var a := MovieAt(m, i);
    var b := ShowAt(t, i);
    ProjectionsConcat(prev + a, b);
    ProjectionsConcat(prev, a);
    RoundProjections(m, t, i);
  }

  lemma RoundShows(prev: seq<Media>, m: seq<Movie>, t: seq<TvShow>, i: nat)
    ensures ShowsOf(prev + MovieAt(m, i) + ShowAt(t, i)) == ShowsOf(prev) + (if i < |t| then [t[i]] else [])
  {
    var a := MovieAt(m, i);
    var b := ShowAt(t, i);
    ProjectionsConcat(prev + a, b);
    ProjectionsConcat(prev, a);
    RoundProjections(m, t, i);
  }

  lemma MoviesRound(prev: seq<Media>, m: seq<Movie>, t: seq<TvShow>, n: nat)
    requires n > 0
    requires MoviesOf(prev) == m[..Min(n - 1, |m|)]
    ensures MoviesOf(prev + MovieAt(m, n - 1) + ShowAt(t, n - 1)) == m[..Min(n, |m|)]
  {
    RoundMovies(prev, m, t, n - 1);
    TakeStep(m, n);
  }

  lemma ShowsRound(prev: seq<Media>, m: seq<Movie>, t: seq<TvShow>, n: nat)
    requires n > 0
    requires ShowsOf(prev) == t[..Min(n - 1, |t|)]
    ensures ShowsOf(prev + MovieAt(m, n - 1) + ShowAt(t, n - 1)) == t[..Min(n, |t|)]
  {
    RoundShows(prev, m, t, n - 1);
    TakeStep(t, n);
  }

  lemma {:induction false} InterleavingMovies(m: seq<Movie>, t: seq<TvShow>, n: nat)
    ensures MoviesOf(Interleaving(m, t, n)) == m[..Min(n, |m|)]
    decreases n
  {
    if n > 0 {
      InterleavingMovies(m, t, n - 1);
      MoviesRound(Interleaving(m, t, n - 1), m, t, n);
    }
  }

  lemma {:induction false} InterleavingShows(m: seq<Movie>, t: seq<TvShow>, n: nat)
    ensures ShowsOf(Interleaving(m, t, n)) == t[..Min(n, |t|)]
    decreases n
  {
    if n > 0 {
      InterleavingShows(m, t, n - 1);
      ShowsRound(Interleaving(m, t, n - 1), m, t, n);
    }
  }

  lemma {:induction false} InterleavingPositions(m: seq<Movie>, t: seq<TvShow>, n: nat, j: nat)
    requires j < Min(n, Min(|m|, |t|))
    ensures |Interleaving(m, t, n)| > 2 * j + 1
    ensures Interleaving(m, t, n)[2 * j] == MovieMedia(m[j]) && Interleaving(m, t, n)[2 * j + 1] == ShowMedia(t[j])
  {
    InterleavingPrefix(m, t, j + 1, n);
    InterleavingLength(m, t, j);
    InterleavingLength(m, t, n);
    var r := Interleaving(m, t, j + 1);
    assert r == Interleaving(m, t, j) + [MovieMedia(m[j])] + [ShowMedia(t[j])];
    assert r[2 * j] == MovieMedia(m[j]) && r[2 * j + 1] == ShowMedia(t[j]);
  }

  /**
   * After `n` rounds: one item per movie and per show taken so far; the
   * movies in their order, the shows in theirs; and while both lists last,
   * round `j` puts movie `j` at position `2j` and show `j` right after it.
   */
  lemma InterleavingSpec(m: seq<Movie>, t: seq<TvShow>, n: nat)
    ensures |Interleaving(m, t, n)| == Min(n, |m|) + Min(n, |t|)
    ensures MoviesOf(Interleaving(m, t, n)) == m[..Min(n, |m|)]
    ensures ShowsOf(Interleaving(m, t, n)) == t[..Min(n, |t|)]
    ensures forall j :: 0 <= j < Min(n, Min(|m|, |t|)) ==>
      Interleaving(m, t, n)[2 * j] == MovieMedia(m[j]) && Interleaving(m, t, n)[2 * j + 1] == ShowMedia(t[j])
  {
    InterleavingLength(m, t, n);
    InterleavingMovies(m, t, n);
    InterleavingShows(m, t, n);
    forall j | 0 <= j < Min(n, Min(|m|, |t|))
      ensures Interleaving(m, t, n)[2 * j] == MovieMedia(m[j]) && Interleaving(m, t, n)[2 * j + 1] == ShowMedia(t[j])
    {
      InterleavingPositions(m, t, n, j);
    }
  }

  /**
   * The loop building `mediaItems`: `maxLength` rounds, each pushing the
   * movie and then the show of that round when there is one.
   */
  method Interleave(movies: seq<Movie>, shows: seq<TvShow>) returns (items: seq<Media>)
    ensures items == Interleaving(movies, shows, Max(|movies|, |shows|))
    ensures |items| == |movies| + |shows|
    ensures MoviesOf(items) == movies && ShowsOf(items) == shows
    ensures forall j :: 0 <= j < Min(|movies|, |shows|) ==>
      items[2 * j] == MovieMedia(movies[j]) && items[2 * j + 1] == ShowMedia(shows[j])
  {
    var maxLength := Max(|movies|, |shows|);
    items := [];
    for i := 0 to maxLength
      invariant items == Interleaving(movies, shows, i)
    {
      ghost var before := items;
      if i < |movies| {
        items := items + [MovieMedia(movies[i])];
      }
      if i < |shows| {
        items := items + [ShowMedia(shows[i])];
      }
      assert items == before + MovieAt(movies, i) + ShowAt(shows, i);
    }
    InterleavingSpec(movies, shows, maxLength);
    assert Min(maxLength, |movies|) == |movies| && Min(maxLength, |shows|) == |shows|;
    assert Min(maxLength, Min(|movies|, |shows|)) == Min(|movies|, |shows|);
    assert movies[..|movies|] == movies;
    assert shows[..|shows|] == shows;
  }

  // ---------------------------------------------------------------------
  // The carousel index
  // ---------------------------------------------------------------------

  /** `goToNext`: `(prev + 1) % n` */
  function NextIndex(i: nat, n: nat): (r: nat)
    requires n > 0
    ensures r < n
  {
    (i + 1) % n
  }

  /** `goToPrevious`: `(prev - 1 + n) % n` */
  function PreviousIndex(i: nat, n: nat): (r: nat)
    requires n > 0
    ensures r < n
  {
    (i - 1 + n) % n
  }

  /** Within range, next steps up and wraps from the last index to the first. */
  lemma NextInRange(i: nat, n: nat)
    requires i < n
    ensures NextIndex(i, n) == if i + 1 < n then i + 1 else 0
  {
    if i + 1 == n {
      assert (i + 1) % n == n % n == 0;
    }
  }

  /** Within range, previous steps down and wraps from the first index to the last. */
  lemma PreviousInRange(i: nat, n: nat)
    requires i < n
    ensures PreviousIndex(i, n) == if i > 0 then i - 1 else n - 1
  {
    if i > 0 {
      var j := i - 1;
      assert j + n == 1 * n + j;
    }
  }

  /** On an index in range, next and previous undo each other, and both wrap round the ends. */
  lemma NextPreviousInverse(i: nat, n: nat)
    requires n > 0 && i < n
    ensures PreviousIndex(NextIndex(i, n), n) == i
    ensures NextIndex(PreviousIndex(i, n), n) == i
    ensures NextIndex(n - 1, n) == 0 && PreviousIndex(0, n) == n - 1
  {
    NextInRange(i, n);
    PreviousInRange(i, n);
    NextInRange(n - 1, n);
    PreviousInRange(0, n);
    PreviousInRange(NextIndex(i, n), n);
    NextInRange(PreviousIndex(i, n), n);
  }

  /** The index after `k` rotation ticks. */
  function Ticks(i: nat, n: nat, k: nat): (r: nat)
    requires n > 0
    decreases k
  {
    if k == 0 then i else NextIndex(Ticks(i, n, k - 1), n)
  }

  lemma {:induction false} TicksUp(i: nat, n: nat, k: nat)
    requires i + k < n
    ensures Ticks(i, n, k) == i + k
    decreases k
  {
    if k > 0 {
      TicksUp(i, n, k - 1);
      NextInRange(i + k - 1, n);
    }
  }

  lemma {:induction false} TicksCompose(i: nat, n: nat, a: nat, b: nat)
    requires n > 0
    ensures Ticks(i, n, a + b) == Ticks(Ticks(i, n, a), n, b)
    decreases b
  {
    if b > 0 {
      TicksCompose(i, n, a, b - 1);
    }
  }

  /**
   * Ticks from an index in range count up until the last item, and `n`
   * ticks on `n` items come back to the same one.
   */
  lemma TicksWrap(i: nat, n: nat, k: nat)
    requires i < n
    ensures i + k < n ==> Ticks(i, n, k) == i + k
    ensures Ticks(i, n, n) == i
  {
    if i + k < n {
      TicksUp(i, n, k);
    }
    TicksCompose(i, n, n - i - 1, 1);
    TicksUp(i, n, n - i - 1);
    NextInRange(n - 1, n);
    assert Ticks(i, n, n - i) == 0;
    TicksCompose(i, n, n - i, i);
    if i > 0 {
      TicksUp(0, n, i);
    }
  }

  /** The timer runs only with rotation on and more than one item. */
  predicate Rotates(autoRotate: bool, n: nat) {
    autoRotate && n > 1
  }

  const MinSwipeDistance: real := 50.0

  datatype SwipeAction = NoSwipe | SwipeNext | SwipePrevious

  /** `!touchStart || !touchEnd`: a missing position, or one at 0, cancels the gesture. */
  predicate Falsy(x: Option<real>) {
    x.None? || x.value == 0.0
  }

  /** `onTouchEnd`: farther than 50 px to the left goes on, to the right goes back. */
  function SwipeOf(touchStart: Option<real>, touchEnd: Option<real>): SwipeAction {
    if Falsy(touchStart) || Falsy(touchEnd) then NoSwipe
    else
      var distance := touchStart.value - touchEnd.value;
      if distance > MinSwipeDistance then SwipeNext
      else if distance < -MinSwipeDistance then SwipePrevious
      else NoSwipe
  }

  /** A gesture: the start position, then the positions it moved through (each `onTouchMove`). */
  function GestureOf(start: real, moves: seq<real>): SwipeAction {
    SwipeOf(Some(start), if moves == [] then None else Some(moves[|moves| - 1]))
  }

  /**
   * A swipe goes on exactly when the opposite swipe goes back; a tap
   * (no movement) or a movement of at most 50 px does nothing; only the
   * last position counts.
   */
  lemma SwipeSymmetry(a: real, b: real, start: real, moves: seq<real>)
    ensures a != 0.0 && b != 0.0 ==> (SwipeOf(Some(a), Some(b)) == SwipeNext <==> SwipeOf(Some(b), Some(a)) == SwipePrevious)
    ensures -50.0 <= a - b <= 50.0 ==> SwipeOf(Some(a), Some(b)) == NoSwipe
    ensures GestureOf(start, []) == NoSwipe
    ensures moves != [] ==> GestureOf(start, moves) == SwipeOf(Some(start), Some(moves[|moves| - 1]))
  {
  }

  /** The index after a gesture on `n` items. */
  function AfterSwipe(i: nat, n: nat, action: SwipeAction): (r: nat)
    requires n > 0
  {
    match action
    case NoSwipe => i
    case SwipeNext => NextIndex(i, n)
    case SwipePrevious => PreviousIndex(i, n)
  }

  /** A swipe one way and then the other comes back to the same item. */
  lemma SwipeBack(i: nat, n: nat, a: real, b: real)
    requires n > 0 && i < n
    requires a != 0.0 && b != 0.0
    ensures AfterSwipe(AfterSwipe(i, n, SwipeOf(Some(a), Some(b))), n, SwipeOf(Some(b), Some(a))) == i
  {
    NextPreviousInverse(i, n);
  }

  // ---------------------------------------------------------------------
  // What the banner shows
  // ---------------------------------------------------------------------

  /** The featured item as the banner draws it. */
  datatype Banner = Banner(
    title: string, rating: real, badge: string, playLabel: string,
    watchLink: string, detailLink: string, backdropUrl: Option<string>, primaryGenre: Option<string>)

  datatype HeroView = HeroLoading | HeroError(message: string) | HeroShowing(index: nat, banner: Banner)

  /** The error view's message. */
  const HeroErrorMessage: string := "Unable to load featured content"

  function BannerOf(item: Media): Banner {
    match item
    case MovieMedia(m) =>
      Banner(m.title, if m.rating != 0.0 then m.rating else 0.0, "MOVIE", "Play",
             MoviePath(m.id) + "/watch", MoviePath(m.id),
             if Images.Blank(m.backdropPath) then None else Images.BackdropUrl(m.backdropPath, Images.BackdropOriginal),
             if m.genres == [] then None else Some(m.genres[0]))
    case ShowMedia(s) =>
      Banner(s.name, if s.voteAverage != 0.0 then s.voteAverage else 0.0, "TV SERIES", "View Series",
             TvPath(s.id), TvPath(s.id),
             if Images.Blank(s.backdropPath) then None else Images.BackdropUrl(s.backdropPath, Images.BackdropOriginal),
             None)
  }

  /**
   * `MediaHero`: the skeleton while either list loads; the error view when
   * a query failed and neither list has anything, or when the index points
   * past the list; otherwise the item at the index.
   */
  function Hero(movieData: Option<seq<Movie>>, showData: Option<seq<TvShow>>,
                moviesLoading: bool, showsLoading: bool, moviesError: bool, showsError: bool,
                index: nat): HeroView
  {
    var movies := Featured(movieData);
    var shows := Featured(showData);
    var items := Interleaving(movies, shows, Max(|movies|, |shows|));
    if moviesLoading || showsLoading then HeroLoading
    else if ((moviesError || showsError) && movies == [] && shows == []) || index >= |items| then HeroError(HeroErrorMessage)
    else HeroShowing(index, BannerOf(items[index]))
  }

  /**
   * A failed query with the other list non-empty still shows the banner;
   * a movie's play button opens its player and a show's opens its page;
   * the first item is the first trending movie when there is one.
   */
  lemma HeroViews(movieData: Option<seq<Movie>>, showData: Option<seq<TvShow>>,
                  moviesError: bool, showsError: bool, item: Media)
    ensures var movies := Featured(movieData);
      var shows := Featured(showData);
      var v := Hero(movieData, showData, false, false, moviesError, showsError, 0);
      && (movies != [] ==> v == HeroShowing(0, BannerOf(MovieMedia(movies[0]))))
      && (movies == [] && shows != [] ==> v == HeroShowing(0, BannerOf(ShowMedia(shows[0]))))
      && (movies == [] && shows == [] ==> v == HeroError(HeroErrorMessage))
    ensures item.MovieMedia? ==> BannerOf(item).watchLink == "/movie/" + IntToString(item.movie.id) + "/watch"
    ensures item.ShowMedia? ==> BannerOf(item).watchLink == "/tv/" + IntToString(item.show.id)
    ensures item.ShowMedia? ==> BannerOf(item).watchLink == BannerOf(item).detailLink
  {
    var movies := Featured(movieData);
    var shows := Featured(showData);
    var n := Max(|movies|, |shows|);
    InterleavingSpec(movies, shows, n);
    if movies == [] && shows != [] {
      InterleavingPrefix(movies, shows, 1, n);
      assert Interleaving(movies, shows, 1) == [ShowMedia(shows[0])];
    } else if movies != [] {
      InterleavingPrefix(movies, shows, 1, n);
      assert Interleaving(movies, shows, 1)[0] == MovieMedia(movies[0]);
    }
  }
}
