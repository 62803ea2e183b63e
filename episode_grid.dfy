/**
 * A season's episode list (components/features/tv/EpisodeGrid.tsx): the
 * loading and empty states, and the cards in episode order with their
 * progress and loading priority.
 */
module EpisodeGrid {
  import opened Common
  import opened TvTypes
  import opened Sorting
  import EpisodeCard

  /** The props one `EpisodeCard` receives. */
  datatype CardProps = CardProps(episode: TvEpisode, href: string, progress: Option<real>, priority: bool)

  /** What the grid renders. */
  datatype GridView = Skeletons(count: nat) | EmptyState(message: string) | Cards(cards: seq<CardProps>)

  /** The number of placeholder cards while loading. */
  const SkeletonCount: nat := 6

  /** The number of leading cards whose images load eagerly. */
  const PriorityCount: nat := 3

  /** `EmptyState`'s default message. */
  const NoEpisodes: string := "No episodes available"

  function EpisodeNumber(e: TvEpisode): int {
    e.episodeNumber
  }

  /** `progressMap?.[n]` */
  function ProgressOf(progressMap: Option<map<int, real>>, n: int): Option<real> {
    if progressMap.Some? && n in progressMap.value then Some(progressMap.value[n]) else None
  }

  /** `EpisodeGrid({episodes, tvShowId, seasonNumber, progressMap, isLoading = false})` */
  function Grid(episodes: seq<TvEpisode>, showId: int, season: int, progressMap: Option<map<int, real>>,
                isLoading: bool := false): GridView
  {
    if isLoading then Skeletons(SkeletonCount)
    else if |episodes| == 0 then EmptyState(NoEpisodes)
    else
      var sorted := SortBy(episodes, EpisodeNumber);
      Cards(seq(|sorted|, i requires 0 <= i < |sorted| =>
        CardProps(sorted[i], EpisodeCard.EpisodeHref(showId, season, sorted[i]),
                  ProgressOf(progressMap, sorted[i].episodeNumber), i < PriorityCount)))
  }

  function CardEpisodes(cards: seq<CardProps>): (r: seq<TvEpisode>)
    ensures |r| == |cards| && forall i :: 0 <= i < |cards| ==> r[i] == cards[i].episode
  {
    seq(|cards|, i requires 0 <= i < |cards| => cards[i].episode)
  }

  /**
   * Loading shows six placeholders whatever the episodes; no episodes show
   * the empty state; otherwise one card per episode, the same episodes in
   * ascending episode number (ties in their given order), each linking to
   * its player, carrying the progress recorded under its number, and the
   * first three loading eagerly.
   */
  lemma GridContents(episodes: seq<TvEpisode>, showId: int, season: int, progressMap: Option<map<int, real>>,
                     isLoading: bool, k: int)
    ensures isLoading ==> Grid(episodes, showId, season, progressMap, isLoading) == Skeletons(6)
    ensures !isLoading && episodes == [] ==> Grid(episodes, showId, season, progressMap, isLoading) == EmptyState(NoEpisodes)
    ensures !isLoading && episodes != [] ==>
      var v := Grid(episodes, showId, season, progressMap, isLoading);
      && v.Cards?
      && multiset(CardEpisodes(v.cards)) == multiset(episodes)
      && SortedBy(CardEpisodes(v.cards), EpisodeNumber)
      && Filter(CardEpisodes(v.cards), KeyIs(EpisodeNumber, k)) == Filter(episodes, KeyIs(EpisodeNumber, k))
      && (forall i :: 0 <= i < |v.cards| ==>
            && v.cards[i].href == TvWatchPath(showId, season, v.cards[i].episode.episodeNumber)
            && v.cards[i].progress == ProgressOf(progressMap, v.cards[i].episode.episodeNumber)
            && (v.cards[i].priority <==> i < 3))
  {
    if !isLoading && episodes != [] {
      var v := Grid(episodes, showId, season, progressMap, isLoading);
      var sorted := SortBy(episodes, EpisodeNumber);
      assert CardEpisodes(v.cards) == sorted;
      SortByPerm(episodes, EpisodeNumber);
      SortBySorted(episodes, EpisodeNumber);
      SortByStable(episodes, EpisodeNumber, k);
    }
  }
}
