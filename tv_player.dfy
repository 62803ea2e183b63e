/**
 * The decision logic of the show player (components/features/tv/TVPlayer.tsx):
 * its reducer, the previous/next-episode rules, the auto-next trigger on
 * messages from the embedded player, and the embed URL. Rendering, the
 * iframe, `postMessage` plumbing and the router are not modelled; a
 * navigation is returned as a value instead.
 */
module TvPlayer {
  import opened Common
  import opened TvTypes
  import opened MediaTypes
  import opened WatchProgress

  datatype PlayerState = PlayerState(currentTime: real, duration: real, hasTriggeredAutoNext: bool, isLoading: bool)

  /** The reducer's initial state. */
  const InitialState: PlayerState := PlayerState(0.0, 0.0, false, true)

  /** `PlayerAction`; `UnknownAction` stands for any value the reducer's `default` arm receives. */
  datatype PlayerAction = SetTime(time: real, duration: real) | TriggerAutoNext | SetLoading(loading: bool) | UnknownAction

  /** `playerReducer` */
  function Reduce(s: PlayerState, a: PlayerAction): PlayerState {
    match a
    case SetTime(t, d) => s.(currentTime := t, duration := d)
    case TriggerAutoNext => s.(hasTriggeredAutoNext := true)
    case SetLoading(l) => s.(isLoading := l)
    case UnknownAction => s
  }

  /**
   * Field by field: time and duration change only on SET_TIME, the auto-next
   * flag only becomes true (on TRIGGER_AUTO_NEXT), loading changes only on
   * SET_LOADING, and any other action leaves the state as it was.
   */
  lemma ReduceFields(s: PlayerState, a: PlayerAction)
    ensures var r := Reduce(s, a);
      && (r.currentTime, r.duration) == (if a.SetTime? then (a.time, a.duration) else (s.currentTime, s.duration))
      && r.hasTriggeredAutoNext == (s.hasTriggeredAutoNext || a.TriggerAutoNext?)
      && r.isLoading == (if a.SetLoading? then a.loading else s.isLoading)
      && (a.UnknownAction? ==> r == s)
  {
  }

  function ReduceAll(s: PlayerState, actions: seq<PlayerAction>): PlayerState
    decreases |actions|
  {
    if actions == [] then s else ReduceAll(Reduce(s, actions[0]), actions[1..])
  }

  /** No sequence of actions clears the auto-next flag: it is set exactly when it was set or some action set it. */
  lemma {:induction false} ReduceAllTriggered(s: PlayerState, actions: seq<PlayerAction>)
    ensures ReduceAll(s, actions).hasTriggeredAutoNext
        <==> s.hasTriggeredAutoNext || exists i :: 0 <= i < |actions| && actions[i].TriggerAutoNext?
    decreases |actions|
  {
    if actions != [] {
      ReduceAllTriggered(Reduce(s, actions[0]), actions[1..]);
      assert forall i :: 0 <= i < |actions| - 1 ==> actions[1..][i] == actions[i + 1];
      if exists i :: 0 <= i < |actions| && actions[i].TriggerAutoNext? {
        var i :| 0 <= i < |actions| && actions[i].TriggerAutoNext?;
        if i > 0 {
          assert actions[1..][i - 1].TriggerAutoNext?;
        }
      }
    }
  }

  // ---------------------------------------------------------------------
  // Episode navigation
  // ---------------------------------------------------------------------

  /** The component's props that the rules read; `hasCallback` is whether `onEpisodeChange` was given. */
  datatype PlayerProps = PlayerProps(show: TvShow, season: int, episode: int, hasCallback: bool)

  /** `seasons.find((s) => s.season_number === season)` */
  function FindSeason(seasons: seq<TvSeason>, number: int): (r: Option<TvSeason>)
    ensures r.Some? ==> r.value in seasons && r.value.seasonNumber == number
    ensures r.None? <==> forall i :: 0 <= i < |seasons| ==> seasons[i].seasonNumber != number
    ensures r.Some? ==> exists i :: 0 <= i < |seasons| && seasons[i] == r.value
                                 && forall j :: 0 <= j < i ==> seasons[j].seasonNumber != number
    decreases |seasons|
  {
    if seasons == [] then None
    else if seasons[0].seasonNumber == number then Some(seasons[0])
    else
      var r := FindSeason(seasons[1..], number);
      assert forall i :: 0 <= i < |seasons| - 1 ==> seasons[1..][i] == seasons[i + 1];
      assert r.Some? ==> exists i :: 1 <= i < |seasons| && seasons[i] == r.value
                                 && forall j :: 0 <= j < i ==> seasons[j].seasonNumber != number;
      r
  }

  function CurrentSeason(p: PlayerProps): Option<TvSeason> {
    FindSeason(p.show.seasons, p.season)
  }

  /** `currentSeason?.episode_count || 0`, passed on as `totalEpisodes`. */
  function CurrentSeasonEpisodeCount(p: PlayerProps): int {
    if CurrentSeason(p).Some? then CurrentSeason(p).value.episodeCount else 0
  }

  /** `hasPreviousEpisode` */
  predicate HasPreviousEpisode(p: PlayerProps) {
    p.episode > 1
  }

  /** `hasNextEpisode` */
  predicate HasNextEpisode(p: PlayerProps) {
    CurrentSeason(p).Some? && p.episode < CurrentSeason(p).value.episodeCount
  }

  /** `canAdvanceToNextSeason()` */
  predicate CanAdvanceToNextSeason(p: PlayerProps) {
    CurrentSeason(p).Some? && p.episode == CurrentSeason(p).value.episodeCount
    && p.season < p.show.numberOfSeasons
  }

  datatype NextEpisodeInfo = NextEpisodeInfo(season: int, episode: int, isNewSeason: bool)

  /** `getNextEpisodeInfo()` */
  function GetNextEpisodeInfo(p: PlayerProps): Option<NextEpisodeInfo> {
    if HasNextEpisode(p) then Some(NextEpisodeInfo(p.season, p.episode + 1, false))
    else if CanAdvanceToNextSeason(p) then Some(NextEpisodeInfo(p.season + 1, 1, true))
    else None
  }

  /**
   * The next episode is the following one of the same season while the
   * season (found by number among the show's seasons) has one; the first
   * of the next season exactly at the season's last episode when the show
   * has a later season; otherwise, and always when the season is not
   * listed, there is none.
   */
  lemma NextInfoCases(p: PlayerProps)
    ensures var r := GetNextEpisodeInfo(p);
      && (CurrentSeason(p).None? ==> r.None?)
      && (CurrentSeason(p).Some? && p.episode < CurrentSeason(p).value.episodeCount ==>
            r == Some(NextEpisodeInfo(p.season, p.episode + 1, false)))
      && (CurrentSeason(p).Some? && p.episode == CurrentSeason(p).value.episodeCount ==>
            r == if p.season < p.show.numberOfSeasons then Some(NextEpisodeInfo(p.season + 1, 1, true)) else None)
      && (CurrentSeason(p).Some? && p.episode > CurrentSeason(p).value.episodeCount ==> r.None?)
      && (r.Some? ==> (r.value.isNewSeason <==> r.value.season == p.season + 1))
  {
  }

  function AsEpisodeRef(info: Option<NextEpisodeInfo>): Option<EpisodeRef> {
    if info.Some? then Some(EpisodeRef(info.value.season, info.value.episode)) else None
  }

  /**
   * For an episode within its season (1 <= episode <= count), or a season
   * the show does not list, the player's next episode is the one the
   * progress tracker records, computed from the same props.
   */
  lemma NextInfoAgreesWithTracker(p: PlayerProps)
    requires p.season >= 0
    requires CurrentSeason(p).Some? ==> 1 <= p.episode <= CurrentSeason(p).value.episodeCount
    ensures AsEpisodeRef(GetNextEpisodeInfo(p))
         == CalculateNextEpisode(p.season, p.episode, Some(p.show.numberOfSeasons), Some(CurrentSeasonEpisodeCount(p)))
  {
  }

  /**
   * Past the season's last episode the two disagree: the player offers no
   * next episode while the tracker points at the next season.
   */
  lemma NextInfoDisagreesPastSeasonEnd(p: PlayerProps)
    requires CurrentSeason(p).Some? && 1 <= CurrentSeason(p).value.episodeCount < p.episode
    requires 0 <= p.season < p.show.numberOfSeasons
    ensures GetNextEpisodeInfo(p).None?
    ensures CalculateNextEpisode(p.season, p.episode, Some(p.show.numberOfSeasons), Some(CurrentSeasonEpisodeCount(p)))
         == Some(EpisodeRef(p.season + 1, 1))
  {
  }

  /** Where a handler goes: the `onEpisodeChange` callback, or a route pushed to the router. */
  datatype Navigation = Callback(season: int, episode: int) | Push(path: string)

  function NavigateTo(p: PlayerProps, season: int, episode: int): Navigation {
    if p.hasCallback then Callback(season, episode) else Push(TvWatchPath(p.show.id, season, episode))
  }

  /** `handlePreviousEpisode` */
  function HandlePrevious(p: PlayerProps): Option<Navigation> {
    if !HasPreviousEpisode(p) then None else Some(NavigateTo(p, p.season, p.episode - 1))
  }

  /** `handleNextEpisode` */
  function HandleNext(p: PlayerProps): Option<Navigation> {
    var next := GetNextEpisodeInfo(p);
    if next.None? then None else Some(NavigateTo(p, next.value.season, next.value.episode))
  }

  /** "Previous" goes to episode - 1 of the same season exactly when the episode is above 1. */
  lemma PreviousRule(p: PlayerProps)
    ensures HandlePrevious(p).Some? <==> p.episode > 1
    ensures p.episode > 1 && p.hasCallback ==> HandlePrevious(p) == Some(Callback(p.season, p.episode - 1))
    ensures p.episode > 1 && !p.hasCallback ==>
      HandlePrevious(p) == Some(Push(TvWatchPath(p.show.id, p.season, p.episode - 1)))
  {
  }

  /** The arrow keys: left plays the previous episode, right the next; nothing while typing in a field. */
  function KeyNavigation(p: PlayerProps, key: string, inTextField: bool): Option<Navigation> {
    if inTextField then None
    else if key == "ArrowLeft" && HasPreviousEpisode(p) then HandlePrevious(p)
    else if key == "ArrowRight" && GetNextEpisodeInfo(p).Some? then HandleNext(p)
    else None
  }

  /**
   * Outside a text field, left arrow moves to episode - 1 exactly when the
   * episode is above 1 and right arrow moves to the next episode exactly
   * when there is one; every other key, and any key in a text field, does
   * nothing.
   */
  lemma KeyNavigationRule(p: PlayerProps, key: string, inTextField: bool)
    ensures var r := KeyNavigation(p, key, inTextField);
      && (inTextField || (key != "ArrowLeft" && key != "ArrowRight") ==> r.None?)
      && (!inTextField && key == "ArrowLeft" ==>
            (r.Some? <==> p.episode > 1) && (r.Some? ==> r == Some(NavigateTo(p, p.season, p.episode - 1))))
      && (!inTextField && key == "ArrowRight" ==>
            (r.Some? <==> GetNextEpisodeInfo(p).Some?)
            && (r.Some? ==> r == Some(NavigateTo(p, GetNextEpisodeInfo(p).value.season, GetNextEpisodeInfo(p).value.episode))))
  {
  }

  // ---------------------------------------------------------------------
  // Auto-next on player messages
  // ---------------------------------------------------------------------

  /** An object message from the embedded player: a 'time' event with numbers, an 'ended' event, or anything else. */
  datatype PlayerMessage = TimeMessage(time: real, duration: real) | EndedMessage | OtherMessage

  /** The test on a 'time' event: within ten seconds of the end, past the first minute. */
  predicate AutoNextOnTime(p: PlayerProps, autonext: bool, triggered: bool, time: real, duration: real) {
    autonext && !triggered && time >= duration - 10.0 && time > 60.0 && GetNextEpisodeInfo(p).Some?
  }

  /** The test on an 'ended' event: the same without the time conditions. */
  predicate AutoNextOnEnded(p: PlayerProps, autonext: bool, triggered: bool) {
    autonext && !triggered && GetNextEpisodeInfo(p).Some?
  }

  /** A message as the handler sees it: the props and the autonext switch of the moment. */
  datatype Incoming = Incoming(props: PlayerProps, autonext: bool, msg: PlayerMessage)

  datatype Step = Step(state: PlayerState, navigation: Option<Navigation>)

  /** `handlePostMessage` for one message. */
  function HandleMessage(st: PlayerState, m: Incoming): Step {
    match m.msg
    case TimeMessage(t, d) =>
      var st1 := Reduce(st, SetTime(t, d));
      if AutoNextOnTime(m.props, m.autonext, st.hasTriggeredAutoNext, t, d)
      then Step(Reduce(st1, TriggerAutoNext), HandleNext(m.props))
      else Step(st1, None)
    case EndedMessage =>
      if AutoNextOnEnded(m.props, m.autonext, st.hasTriggeredAutoNext)
      then Step(Reduce(st, TriggerAutoNext), HandleNext(m.props))
      else Step(st, None)
    case OtherMessage => Step(st, None)
  }

  /** A navigation fires exactly when the message's test passes, and it is the next-episode navigation. */
  lemma HandleMessageFires(st: PlayerState, m: Incoming)
    ensures var r := HandleMessage(st, m);
      && (r.navigation.Some? <==>
            (m.msg.TimeMessage? && AutoNextOnTime(m.props, m.autonext, st.hasTriggeredAutoNext, m.msg.time, m.msg.duration))
            || (m.msg.EndedMessage? && AutoNextOnEnded(m.props, m.autonext, st.hasTriggeredAutoNext)))
      && (r.navigation.Some? ==> r.navigation == HandleNext(m.props) && r.state.hasTriggeredAutoNext)
      && (st.hasTriggeredAutoNext ==> r.state.hasTriggeredAutoNext && r.navigation.None?)
  {
  }

  /** The navigations a player instance performs over a run of messages, and its final state. */
  function Run(st: PlayerState, msgs: seq<Incoming>): (PlayerState, seq<Navigation>)
    decreases |msgs|
  {
    if msgs == [] then (st, [])
    else
      var step := HandleMessage(st, msgs[0]);
      var (final, rest) := Run(step.state, msgs[1..]);
      (final, (if step.navigation.Some? then [step.navigation.value] else []) + rest)
  }

  /**
   * Auto-next fires at most once per player instance, whatever the messages
   * and however the props and the switch change in between; once it has
   * fired, the flag stays set.
   */
  lemma {:induction false} AutoNextAtMostOnce(st: PlayerState, msgs: seq<Incoming>)
    ensures |Run(st, msgs).1| <= (if st.hasTriggeredAutoNext then 0 else 1)
    ensures |Run(st, msgs).1| == 1 || st.hasTriggeredAutoNext ==> Run(st, msgs).0.hasTriggeredAutoNext
    decreases |msgs|
  {
    if msgs != [] {
      var step := HandleMessage(st, msgs[0]);
      HandleMessageFires(st, msgs[0]);
      AutoNextAtMostOnce(step.state, msgs[1..]);
    }
  }

  // ---------------------------------------------------------------------
  // Embed URL
  // ---------------------------------------------------------------------

  function FlagChar(b: bool): char {
    if b then '1' else '0'
  }

  /** `streamUrl` */
  function StreamUrl(showId: int, season: int, episode: int, autoplay: bool, autonext: bool): string {
    "https://vidsrc-embed.ru/embed/tv?tmdb=" + IntToString(showId)
    + "&season=" + IntToString(season) + "&episode=" + IntToString(episode)
    + (if autoplay then "&autoplay=1" else "&autoplay=0")
    + (if autonext then "&autonext=1" else "&autonext=0")
  }

  /**
   * The URL ends in `&autoplay=X&autonext=Y` with X = 1 exactly when
   * autoplay is on and Y = 1 exactly when autonext is on, so the two
   * switches can be read back from it.
   */
  lemma StreamUrlFlags(showId: int, season: int, episode: int, autoplay: bool, autonext: bool)
    ensures var u := StreamUrl(showId, season, episode, autoplay, autonext);
      |u| > 22 && u[|u| - 22..] == "&autoplay=" + [FlagChar(autoplay)] + "&autonext=" + [FlagChar(autonext)]
      && (u[|u| - 12] == '1' <==> autoplay) && (u[|u| - 1] == '1' <==> autonext)
  {
    var base := "https://vidsrc-embed.ru/embed/tv?tmdb=" + IntToString(showId)
      + "&season=" + IntToString(season) + "&episode=" + IntToString(episode);
    var tail := "&autoplay=" + [FlagChar(autoplay)] + "&autonext=" + [FlagChar(autonext)];
    assert (if autoplay then "&autoplay=1" else "&autoplay=0") + (if autonext then "&autonext=1" else "&autonext=0") == tail;
    assert StreamUrl(showId, season, episode, autoplay, autonext) == base + tail;
  }
}
