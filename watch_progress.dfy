/**
 * Watch-progress tracking (hooks/useWatchProgress.ts): the succession of
 * episodes, the percentage computed from a playback position, the
 * ten-second gate on automatic saves and the entries a save produces.
 *
 * The store members the hook calls (`updateWatchHistoryItem`,
 * `updateContinueWatching`) are not defined in the store shown, so a save is
 * modelled as the pair of requests it sends, appended to a log. The clock
 * (`Date.now()`, `new Date()`) is an argument `now` in milliseconds.
 */
module WatchProgress {
  import opened Common
  import opened MediaTypes

  /** `saveIntervalMs` */
  const SaveInterval: int := 10000

  /** A number that JavaScript treats as true: present and not 0. */
  predicate Truthy(n: Option<int>) {
    n.Some? && n.value != 0
  }

  /** `calculateNextEpisode(currentSeason, currentEpisode, totalSeasons, episodesInSeason)` */
  function CalculateNextEpisode(season: int, episode: int, totalSeasons: Option<int>, episodesInSeason: Option<int>)
    : Option<EpisodeRef>
  {
    if !Truthy(episodesInSeason) then None
    else if episode < episodesInSeason.value then Some(EpisodeRef(season, episode + 1))
    else if Truthy(totalSeasons) && season < totalSeasons.value then Some(EpisodeRef(season + 1, 1))
    else None
  }

  /**
   * The three outcomes: the next episode of the same season while one is
   * left, else the first episode of the next season while one is left, else
   * none (the series finale, or an unknown or zero episode count).
   */
  lemma NextEpisodeCases(season: int, episode: int, totalSeasons: Option<int>, episodesInSeason: Option<int>)
    ensures var r := CalculateNextEpisode(season, episode, totalSeasons, episodesInSeason);
      && (episodesInSeason.None? || episodesInSeason.value == 0 ==> r.None?)
      && (Truthy(episodesInSeason) && episode < episodesInSeason.value ==>
            r == Some(EpisodeRef(season, episode + 1)))
      && (Truthy(episodesInSeason) && episode >= episodesInSeason.value ==>
            (r.Some? <==> Truthy(totalSeasons) && season < totalSeasons.value))
      && (r.Some? && r.value.season != season ==> r.value == EpisodeRef(season + 1, 1))
  {
  }

  /** Lexicographic order on (season, episode). */
  predicate After(p: EpisodeRef, season: int, episode: int) {
    p.season > season || (p.season == season && p.episode > episode)
  }

  /** A returned episode always comes after the current one, and is within the stated bounds. */
  lemma NextEpisodeAfter(season: int, episode: int, totalSeasons: Option<int>, episodesInSeason: Option<int>)
    ensures var r := CalculateNextEpisode(season, episode, totalSeasons, episodesInSeason);
      r.Some? ==>
        (&& After(r.value, season, episode)
         && (r.value.season == season ==> r.value.episode <= episodesInSeason.value)
         && (r.value.season != season ==> r.value.season <= totalSeasons.value))
  {
  }

  /** `Math.min((currentTime / duration) * 100, 100)`: capped at 100 but not clamped below. */
  function ProgressPercent(currentTime: real, duration: real): (r: real)
    requires duration != 0.0
    ensures r <= 100.0
    ensures currentTime / duration * 100.0 <= 100.0 ==> r == currentTime / duration * 100.0
    ensures 0.0 <= currentTime && 0.0 < duration ==> 0.0 <= r
    ensures currentTime < 0.0 && 0.0 < duration ==> r < 0.0
  {
    var p := currentTime / duration * 100.0;
    if p < 100.0 then p else 100.0
  }

  /** The hook's options. */
  datatype WatchOptions = WatchOptions(
    id: int,
    kind: MediaType,
    season: Option<int>,
    episode: Option<int>,
    episodeTitle: Option<string>,
    title: Option<string>,
    posterPath: Option<string>,
    runtime: Option<int>,
    totalSeasons: Option<int>,
    totalEpisodes: Option<int>)

  /** The source asserts (`season!`, `episode!`) that a show comes with its episode. */
  predicate WellFormed(opts: WatchOptions) {
    opts.kind == TvType ==> opts.season.Some? && opts.episode.Some?
  }

  /** The arguments of `updateWatchHistoryItem(id, type, progress, season, episode)`. */
  datatype HistoryUpdate = HistoryUpdate(
    id: int, kind: MediaType, progress: real, season: Option<int>, episode: Option<int>)

  /** What one `saveProgress` sends to the store. */
  datatype SaveRequest = SaveRequest(history: HistoryUpdate, entry: ContinueWatchingItem)

  /**
   * The continue-watching entry of a save: a movie entry carries title,
   * poster and runtime and no episode fields; a show entry carries the title
   * as its name, the season, episode and episode title, and the episode that
   * follows.
   */
  function ContinueWatchingEntry(opts: WatchOptions, progress: real, now: int): (e: ContinueWatchingItem)
    requires WellFormed(opts)
    ensures e.id == opts.id && e.kind == opts.kind && e.progress == progress && e.lastWatched == now
    ensures opts.kind == MovieType ==>
      e.title == opts.title && e.posterPath == opts.posterPath && e.runtime == opts.runtime
      && e.name.None? && e.season.None? && e.episode.None? && e.episodeTitle.None? && e.nextEpisode.None?
    ensures opts.kind == TvType ==>
      e.name == opts.title && e.season == opts.season && e.episode == opts.episode
      && e.episodeTitle == opts.episodeTitle && e.title.None? && e.posterPath.None? && e.runtime.None?
      && e.nextEpisode == CalculateNextEpisode(opts.season.value, opts.episode.value, opts.totalSeasons, opts.totalEpisodes)
  {
    match opts.kind
    case MovieType =>
      ContinueWatchingItem(opts.id, MovieType, progress, now, opts.title, opts.posterPath, opts.runtime,
                           None, None, None, None, None)
    case TvType =>
      var next := CalculateNextEpisode(opts.season.value, opts.episode.value, opts.totalSeasons, opts.totalEpisodes);
      ContinueWatchingItem(opts.id, TvType, progress, now, None, None, None,
                           opts.title, opts.season, opts.episode, opts.episodeTitle, next)
  }

  function SaveFor(opts: WatchOptions, progress: real, now: int): SaveRequest
    requires WellFormed(opts)
  {
    SaveRequest(HistoryUpdate(opts.id, opts.kind, progress, opts.season, opts.episode),
                ContinueWatchingEntry(opts, progress, now))
  }

  /** Successive times, starting after `start`, each at least `SaveInterval` after the one before. */
  ghost predicate SpacedFrom(start: int, times: seq<int>) {
    forall i {:trigger times[i]} :: 0 <= i < |times| ==> times[i] - (if i == 0 then start else times[i - 1]) >= SaveInterval
  }

  /** A time far enough after the last one extends a spaced sequence. */
  lemma SpacedAppend(start: int, times: seq<int>, t: int)
    requires SpacedFrom(start, times)
    requires t - (if times == [] then start else times[|times| - 1]) >= SaveInterval
    ensures SpacedFrom(start, times + [t])
  {
    var u := times + [t];
    forall i | 0 <= i < |u| ensures u[i] - (if i == 0 then start else u[i - 1]) >= SaveInterval {
      if i < |times| {
        assert u[i] == times[i];
        assert times[i] - (if i == 0 then start else times[i - 1]) >= SaveInterval;
        if i > 0 { assert u[i - 1] == times[i - 1]; }
      } else if i > 0 {
        assert u[i] == t && u[i - 1] == times[|times| - 1];
      }
    }
    assert SpacedFrom(start, u);
  }

  /** Any two gated saves are at least ten seconds apart per save in between. */
  lemma {:induction false} SpacedGap(start: int, times: seq<int>, i: int, j: int)
    requires SpacedFrom(start, times)
    requires 0 <= i <= j < |times|
    ensures times[j] - times[i] >= SaveInterval * (j - i)
    ensures times[j] - start >= SaveInterval * (j + 1)
    decreases j
  {
    assert times[j] - (if j == 0 then start else times[j - 1]) >= SaveInterval;
    if j > 0 {
      SpacedGap(start, times, if i < j then i else j - 1, j - 1);
      assert SaveInterval * (j + 1) == SaveInterval * j + SaveInterval;
      if i < j {
        assert SaveInterval * (j - i) == SaveInterval * (j - 1 - i) + SaveInterval;
      }
    }
  }

  /** One mounted hook: `lastSaveTimeRef` and the saves it has sent. */
  class Tracker {
    const opts: WatchOptions
    var lastSaveTime: int
    var saves: seq<SaveRequest>
    /** The clock values at which the gate let a save through. */
    ghost var gatedTimes: seq<int>

    ghost predicate Valid()
      reads this
    {
      && WellFormed(opts)
      && SpacedFrom(0, gatedTimes)
      && lastSaveTime == (if gatedTimes == [] then 0 else gatedTimes[|gatedTimes| - 1])
    }

    constructor (opts: WatchOptions)
      requires WellFormed(opts)
      ensures Valid() && this.opts == opts
      ensures lastSaveTime == 0 && saves == [] && gatedTimes == []
    {
      this.opts := opts;
      lastSaveTime := 0;
      saves := [];
      gatedTimes := [];
    }

    /** `saveProgress(progress)`: no gate, and `lastSaveTimeRef` is untouched. */
    method SaveProgress(progress: real, now: int)
      requires Valid()
      modifies this`saves
      ensures Valid()
      ensures saves == old(saves) + [SaveFor(opts, progress, now)]
    {
      saves := saves + [SaveFor(opts, progress, now)];
    }

    /** `markComplete()`: a save of 100 percent. */
    method MarkComplete(now: int)
      requires Valid()
      modifies this`saves
      ensures Valid()
      ensures saves == old(saves) + [SaveFor(opts, 100.0, now)]
    {
      SaveProgress(100.0, now);
    }

    /** `updateProgress(currentTime, duration)` at clock value `now`. */
    method UpdateProgress(currentTime: real, duration: real, now: int)
      requires Valid()
      modifies this`lastSaveTime, this`saves, this`gatedTimes
      ensures Valid()
      ensures duration == 0.0 || now - old(lastSaveTime) < SaveInterval ==>
        saves == old(saves) && lastSaveTime == old(lastSaveTime) && gatedTimes == old(gatedTimes)
      ensures duration != 0.0 && now - old(lastSaveTime) >= SaveInterval ==>
        && saves == old(saves) + [SaveFor(opts, ProgressPercent(currentTime, duration), now)]
        && lastSaveTime == now
        && gatedTimes == old(gatedTimes) + [now]
    {
      if duration == 0.0 {
        return;
      }
      var progress := ProgressPercent(currentTime, duration);
      if now - lastSaveTime >= SaveInterval {
        SpacedAppend(0, gatedTimes, now);
        SaveProgress(progress, now);
        lastSaveTime := now;
        gatedTimes := gatedTimes + [now];
      }
    }
  }
}
