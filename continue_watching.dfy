/**
 * The "Continue Watching" derivation (hooks/useContinueWatching.ts): the
 * unfinished entries of the watch history, most recent first, at most 20;
 * one detail query per selected entry; and the items assembled index by
 * index from the queries that returned data. The selection and the
 * assembly are stated once, generically, and the movie-only hook and the
 * movie-and-show hook (enhanced_continue_watching.dfy) instantiate them.
 * The query library is not modelled: each query is the state it reports.
 */
module ContinueWatching {
  import opened Common
  import opened Sorting
  import opened MovieTypes
  import opened UserPreferencesStore

  /** `.slice(0, 20)` */
  const MaxItems: nat := 20

  /** `.filter((item) => item.progress < 90)` */
  function Incomplete<T>(progress: T -> real): T -> bool {
    x => progress(x) < 90.0
  }

  /** The comparator `(a, b) => time(b) - time(a)`: ascending by the negated time. */
  function Recency<T>(time: T -> int): T -> int {
    x => -time(x)
  }

  /** filter, then stable sort most recent first, then slice. */
  function SelectRecent<T>(s: seq<T>, progress: T -> real, time: T -> int): seq<T> {
    Take(SortBy(Filter(s, Incomplete(progress)), Recency(time)), MaxItems)
  }

  /**
   * The selection holds only unfinished entries, at most 20 of them, in
   * non-increasing time; it takes nothing that was not in the input (as a
   * multiset), and it is as long as it can be: all unfinished entries when
   * there are at most 20, else 20.
   */
  lemma SelectRecentProperties<T>(s: seq<T>, progress: T -> real, time: T -> int)
    ensures var r := SelectRecent(s, progress, time);
      && |r| <= MaxItems
      && (forall i :: 0 <= i < |r| ==> progress(r[i]) < 90.0)
      && (forall i, j :: 0 <= i < j < |r| ==> time(r[i]) >= time(r[j]))
      && multiset(r) <= multiset(s)
      && |r| == Min(|Filter(s, Incomplete(progress))|, MaxItems)
  {
    SelectRecentContents(s, progress, time);
    SelectRecentOrder(s, progress, time);
  }

  lemma SelectRecentContents<T>(s: seq<T>, progress: T -> real, time: T -> int)
    ensures var r := SelectRecent(s, progress, time);
      && |r| <= MaxItems
      && (forall i :: 0 <= i < |r| ==> progress(r[i]) < 90.0)
      && multiset(r) <= multiset(s)
      && |r| == Min(|Filter(s, Incomplete(progress))|, MaxItems)
  {
    var f := Filter(s, Incomplete(progress));
    var sorted := SortBy(f, Recency(time));
    var r := Take(sorted, MaxItems);
    SortByPerm(f, Recency(time));
    FilterSubMultiset(s, Incomplete(progress));
    assert sorted == r + sorted[|r|..];
    assert multiset(sorted) == multiset(r) + multiset(sorted[|r|..]);
    forall i | 0 <= i < |r| ensures progress(r[i]) < 90.0 {
      assert r[i] == sorted[i];
      assert sorted[i] in multiset(sorted);
      assert r[i] in f;
    }
  }

  lemma SelectRecentOrder<T>(s: seq<T>, progress: T -> real, time: T -> int)
    ensures var r := SelectRecent(s, progress, time);
      forall i, j :: 0 <= i < j < |r| ==> time(r[i]) >= time(r[j])
  {
    var f := Filter(s, Incomplete(progress));
    var sorted := SortBy(f, Recency(time));
    var r := Take(sorted, MaxItems);
    SortBySorted(f, Recency(time));
    forall i, j | 0 <= i < j < |r| ensures time(r[i]) >= time(r[j]) {
      assert Recency(time)(sorted[i]) <= Recency(time)(sorted[j]);
    }
  }

  /**
   * "Most recent first, take 20" means nothing unfinished is lost that is
   * more recent than something kept: every unfinished entry left out is no
   * more recent than every entry selected. With at most 20 unfinished
   * entries none is left out.
   */
  lemma SelectRecentKeepsNewest<T>(s: seq<T>, progress: T -> real, time: T -> int)
    ensures var f := Filter(s, Incomplete(progress));
      var r := SelectRecent(s, progress, time);
      && (forall x, y :: x in multiset(f) - multiset(r) && y in r ==> time(x) <= time(y))
      && (|f| <= MaxItems ==> multiset(r) == multiset(f))
  {
    var f := Filter(s, Incomplete(progress));
    var sorted := SortBy(f, Recency(time));
    var r := Take(sorted, MaxItems);
    SortByPerm(f, Recency(time));
    SortBySorted(f, Recency(time));
    var rest := sorted[|r|..];
    assert sorted == r + rest;
    assert multiset(f) == multiset(r) + multiset(rest);
    assert multiset(f) - multiset(r) == multiset(rest);
    forall x, y | x in multiset(f) - multiset(r) && y in r ensures time(x) <= time(y) {
      assert x in rest;
      var a :| 0 <= a < |rest| && rest[a] == x;
      var b :| 0 <= b < |r| && r[b] == y;
      assert sorted[b] == y && sorted[|r| + a] == x;
      assert Recency(time)(sorted[b]) <= Recency(time)(sorted[|r| + a]);
    }
  }

  // ---------------------------------------------------------------------
  // Queries and index-wise assembly
  // ---------------------------------------------------------------------

  /** What `useQueries` reports for one query. */
  datatype QueryState<D> = QueryState(data: Option<D>, isLoading: bool, isFetching: bool, isPending: bool, isError: bool)

  predicate Busy<D>(q: QueryState<D>) {
    q.isLoading || q.isFetching || q.isPending
  }

  /**
   * `queries.map((query, index) => query.data ? make(selection[index], query.data) : null).filter(nonNull)`,
   * built up query by query from the first.
   */
  function Assemble<A, D, R>(sel: seq<A>, qs: seq<QueryState<D>>, make: (A, D) -> R): (r: seq<R>)
    requires |qs| == |sel|
    ensures |r| <= |qs|
    decreases |qs|
  {
    if qs == [] then []
    else
      var n := |qs| - 1;
      Assemble(sel[..n], qs[..n], make) + (if qs[n].data.Some? then [make(sel[n], qs[n].data.value)] else [])
  }

  /** The positions of the queries that returned data, in order. */
  function Kept<D>(qs: seq<QueryState<D>>): seq<int>
    decreases |qs|
  {
    if qs == [] then []
    else
      var n := |qs| - 1;
      Kept(qs[..n]) + (if qs[n].data.Some? then [n] else [])
  }

  /** The kept positions lie in range, point at queries with data, and increase strictly. */
  lemma {:induction false} KeptBounds<D>(qs: seq<QueryState<D>>)
    ensures var k := Kept(qs);
      && |k| <= |qs|
      && (forall j :: 0 <= j < |k| ==> 0 <= k[j] < |qs| && qs[k[j]].data.Some?)
      && (forall i, j :: 0 <= i < j < |k| ==> k[i] < k[j])
    decreases |qs|
  {
    if qs != [] {
      var n := |qs| - 1;
      KeptBounds(qs[..n]);
      var k1 := Kept(qs[..n]);
      forall j | 0 <= j < |k1| ensures qs[k1[j]] == qs[..n][k1[j]] {
      }
    }
  }

  /** A position is kept exactly when its query returned data. */
  lemma {:induction false} KeptMembership<D>(qs: seq<QueryState<D>>)
    ensures forall i :: 0 <= i < |qs| ==> (qs[i].data.Some? <==> i in Kept(qs))
    decreases |qs|
  {
    if qs != [] {
      var n := |qs| - 1;
      KeptMembership(qs[..n]);
      KeptBounds(qs[..n]);
      var k1 := Kept(qs[..n]);
      var tail := if qs[n].data.Some? then [n] else [];
      assert Kept(qs) == k1 + tail;
      forall i | 0 <= i < |qs| ensures qs[i].data.Some? <==> i in k1 + tail {
        if i < n {
          assert qs[i] == qs[..n][i];
          assert i !in tail;
        } else {
          assert n !in k1;
        }
      }
    }
  }

  /** Item j of the assembly is made from the entry and the data at the j-th kept position. */
  lemma {:induction false} AssembleKept<A, D, R>(sel: seq<A>, qs: seq<QueryState<D>>, make: (A, D) -> R)
    requires |qs| == |sel|
    ensures var r := Assemble(sel, qs, make);
      var k := Kept(qs);
      && |r| == |k|
      && (forall j :: 0 <= j < |k| ==>
            0 <= k[j] < |qs| && qs[k[j]].data.Some? && r[j] == make(sel[k[j]], qs[k[j]].data.value))
    decreases |qs|
  {
    KeptBounds(qs);
    if qs != [] {
      var n := |qs| - 1;
      AssembleKept(sel[..n], qs[..n], make);
      KeptBounds(qs[..n]);
      var k1 := Kept(qs[..n]);
      forall j | 0 <= j < |k1| ensures qs[k1[j]] == qs[..n][k1[j]] && sel[k1[j]] == sel[..n][k1[j]] {
      }
    }
  }

  /**
   * The assembled list pairs query i with selected entry i: it holds one
   * item per query that returned data, made from that query's data and the
   * entry at the same index, in index order; the queries without data are
   * exactly the ones dropped.
   */
  lemma AssembleSpec<A, D, R>(sel: seq<A>, qs: seq<QueryState<D>>, make: (A, D) -> R)
    requires |qs| == |sel|
    ensures var r := Assemble(sel, qs, make);
      var k := Kept(qs);
      && |r| == |k|
      && (forall j :: 0 <= j < |k| ==>
            0 <= k[j] < |qs| && qs[k[j]].data.Some? && r[j] == make(sel[k[j]], qs[k[j]].data.value))
      && (forall i, j :: 0 <= i < j < |k| ==> k[i] < k[j])
      && (forall i :: 0 <= i < |qs| ==> (qs[i].data.Some? <==> i in k))
  {
    AssembleKept(sel, qs, make);
    KeptBounds(qs);
    KeptMembership(qs);
  }

  /** When every query has data, nothing is dropped. */
  lemma AssembleAll<A, D, R>(sel: seq<A>, qs: seq<QueryState<D>>, make: (A, D) -> R)
    requires |qs| == |sel|
    requires forall i :: 0 <= i < |qs| ==> qs[i].data.Some?
    ensures var r := Assemble(sel, qs, make);
      |r| == |sel| && forall i :: 0 <= i < |r| ==> r[i] == make(sel[i], qs[i].data.value)
  {
    AssembleSpec(sel, qs, make);
    var k := Kept(qs);
    assert forall j :: 0 <= j < |k| ==> 0 <= k[j] < |qs|;
    forall i | 0 <= i < |qs| ensures k[i] == i {
      StrictlyIncreasingIsIdentity(k, |qs|, i);
    }
  }

  /** A strictly increasing list of |k| = n values in [0, n) is 0, 1, …, n - 1. */
  lemma StrictlyIncreasingIsIdentity(k: seq<int>, n: nat, i: int)
    requires |k| == n
    requires forall j :: 0 <= j < |k| ==> 0 <= k[j] < n
    requires forall a, b :: 0 <= a < b < |k| ==> k[a] < k[b]
    requires 0 <= i < n
    ensures k[i] == i
  {
    LowerBound(k, i);
    UpperBound(k, n, i);
  }

  lemma {:induction false} LowerBound(k: seq<int>, i: int)
    requires forall j :: 0 <= j < |k| ==> 0 <= k[j]
    requires forall a, b :: 0 <= a < b < |k| ==> k[a] < k[b]
    requires 0 <= i < |k|
    ensures k[i] >= i
    decreases i
  {
    if i > 0 {
      LowerBound(k, i - 1);
    }
  }

  lemma {:induction false} UpperBound(k: seq<int>, n: int, i: int)
    requires forall j :: 0 <= j < |k| ==> k[j] < n
    requires forall a, b :: 0 <= a < b < |k| ==> k[a] < k[b]
    requires 0 <= i < |k| && |k| == n
    ensures k[i] <= i
    decreases |k| - i
  {
    if i < |k| - 1 {
      UpperBound(k, n, i + 1);
    }
  }

  /** `isLoading`: some query busy, and never with an empty selection. */
  predicate IsLoading<A, D>(sel: seq<A>, qs: seq<QueryState<D>>) {
    |sel| > 0 && exists i :: 0 <= i < |qs| && Busy(qs[i])
  }

  /** `hasError` */
  predicate HasError<D>(qs: seq<QueryState<D>>) {
    exists i :: 0 <= i < |qs| && qs[i].isError
  }

  /** With nothing selected, the row never reports loading. */
  lemma NothingSelectedNotLoading<A, D>(sel: seq<A>, qs: seq<QueryState<D>>)
    requires sel == []
    ensures !IsLoading(sel, qs)
  {
  }

  // ---------------------------------------------------------------------
  // The movie-only hook
  // ---------------------------------------------------------------------

  /** `ContinueWatchingItem` of the hook: the movie, and the progress and timestamp of its history entry. */
  datatype MovieItem = MovieItem(movie: Movie, progress: real, timestamp: int)

  datatype MovieRow = MovieRow(items: seq<MovieItem>, isLoading: bool, hasError: bool)

  function EntryProgress(e: WatchProgress): real { e.progress }
  function EntryTime(e: WatchProgress): int { e.timestamp }

  /** `incompleteMovies` */
  function IncompleteMovies(history: seq<WatchProgress>): seq<WatchProgress> {
    SelectRecent(history, EntryProgress, EntryTime)
  }

  /** The item for a selected entry and the detail its query returned. */
  function MakeMovieItem(w: WatchProgress, d: MovieDetail): MovieItem {
    MovieItem(d.AsMovie(), w.progress, w.timestamp)
  }

  /** `useContinueWatching()` given the state of the queries it started, one per selected entry. */
  function UseContinueWatching(history: seq<WatchProgress>, qs: seq<QueryState<MovieDetail>>): MovieRow
    requires |qs| == |IncompleteMovies(history)|
  {
    var sel := IncompleteMovies(history);
    MovieRow(Assemble(sel, qs, MakeMovieItem), IsLoading(sel, qs), HasError(qs))
  }

  /**
   * The row's items are at most 20 unfinished movies ordered most recent
   * first; each carries the progress and timestamp of a history entry;
   * loading needs a non-empty selection, and an error is reported exactly
   * when some query failed.
   */
  lemma MovieRowProperties(history: seq<WatchProgress>, qs: seq<QueryState<MovieDetail>>)
    requires |qs| == |IncompleteMovies(history)|
    ensures var row := UseContinueWatching(history, qs);
      && |row.items| <= MaxItems
      && (forall j :: 0 <= j < |row.items| ==> row.items[j].progress < 90.0)
      && (forall i, j :: 0 <= i < j < |row.items| ==> row.items[i].timestamp >= row.items[j].timestamp)
      && (forall j :: 0 <= j < |row.items| ==>
            exists e :: e in history && e.progress == row.items[j].progress && e.timestamp == row.items[j].timestamp)
      && (row.isLoading ==> IncompleteMovies(history) != [])
      && (row.hasError <==> exists i :: 0 <= i < |qs| && qs[i].isError)
  {
    var sel := IncompleteMovies(history);
    var row := UseContinueWatching(history, qs);
    SelectRecentProperties(history, EntryProgress, EntryTime);
    AssembleSpec(sel, qs, MakeMovieItem);
    var k := Kept(qs);
    forall j | 0 <= j < |row.items|
      ensures row.items[j].progress < 90.0
      ensures exists e :: e in history && e.progress == row.items[j].progress && e.timestamp == row.items[j].timestamp
    {
      var e := sel[k[j]];
      assert e in multiset(sel);
      assert e in history;
    }
    forall i, j | 0 <= i < j < |row.items| ensures row.items[i].timestamp >= row.items[j].timestamp {
      assert k[i] < k[j];
    }
  }
}
