/**
 * The season tabs of a show (components/features/tv/SeasonSelector.tsx):
 * which seasons are offered and in what order, the labels and the active
 * tab.
 */
module SeasonSelector {
  import opened Common
  import opened TvTypes
  import opened Sorting

  /** Specials (season 0) and anything below are not offered. */
  predicate IsRegular(s: TvSeason) {
    s.seasonNumber > 0
  }

  function SeasonNumber(s: TvSeason): int {
    s.seasonNumber
  }

  /** `validSeasons`: the regular seasons by ascending number. */
  function ValidSeasons(seasons: seq<TvSeason>): seq<TvSeason> {
    SortBy(Filter(seasons, IsRegular), SeasonNumber)
  }

  /**
   * The offered seasons are exactly the regular ones, each as often as
   * given, in ascending order of number.
   */
  lemma ValidSeasonsSpec(seasons: seq<TvSeason>, s: TvSeason)
    ensures var v := ValidSeasons(seasons);
      && multiset(v) == multiset(Filter(seasons, IsRegular))
      && (s in v <==> s in seasons && s.seasonNumber > 0)
      && SortedBy(v, SeasonNumber)
      && (forall i :: 0 <= i < |v| ==> v[i].seasonNumber > 0)
  {
    var f := Filter(seasons, IsRegular);
    SortByPerm(f, SeasonNumber);
    SortBySorted(f, SeasonNumber);
    ValidSeasonsRegular(seasons, s);
  }

  lemma ValidSeasonsRegular(seasons: seq<TvSeason>, s: TvSeason)
    requires multiset(ValidSeasons(seasons)) == multiset(Filter(seasons, IsRegular))
    ensures s in ValidSeasons(seasons) <==> s in seasons && s.seasonNumber > 0
    ensures forall i :: 0 <= i < |ValidSeasons(seasons)| ==> ValidSeasons(seasons)[i].seasonNumber > 0
  {
    var f := Filter(seasons, IsRegular);
    var v := ValidSeasons(seasons);
    FilterKeeps(seasons, IsRegular, s);
    assert s in v <==> s in multiset(v);
    forall i | 0 <= i < |v| ensures v[i].seasonNumber > 0 {
      assert v[i] in multiset(v);
      FilterKeeps(seasons, IsRegular, v[i]);
    }
  }

  /** Seasons sharing a number keep their given order. */
  lemma ValidSeasonsStable(seasons: seq<TvSeason>, k: int)
    ensures Filter(ValidSeasons(seasons), KeyIs(SeasonNumber, k))
         == Filter(Filter(seasons, IsRegular), KeyIs(SeasonNumber, k))
  {
    SortByStable(Filter(seasons, IsRegular), SeasonNumber, k);
  }

  /** One tab: the number it selects, its two labels, whether it is active. */
  datatype Tab = Tab(seasonNumber: int, title: string, episodes: string, ariaLabel: string, active: bool)

  /** What the selector renders. */
  datatype SelectorView =
    | Nothing
    | SingleSeason(title: string, episodes: string)
    | Tabs(tabs: seq<Tab>)

  /** `{n} Episode` or `{n} Episodes` */
  function EpisodeCountText(n: int): string {
    IntToString(n) + " " + (if n == 1 then "Episode" else "Episodes")
  }

  /** `{n} Ep` or `{n} Eps` */
  function ShortCountText(n: int): string {
    IntToString(n) + " " + (if n == 1 then "Ep" else "Eps")
  }

  function TabOf(s: TvSeason, selected: int): Tab {
    Tab(s.seasonNumber, "Season " + IntToString(s.seasonNumber), ShortCountText(s.episodeCount),
        "Season " + IntToString(s.seasonNumber) + ", " + IntToString(s.episodeCount) + " episodes",
        s.seasonNumber == selected)
  }

  /** The selector as written: a lone season is always titled "Season 1". */
  function SelectorAsWritten(seasons: seq<TvSeason>, selected: int): SelectorView {
    var v := ValidSeasons(seasons);
    if |v| == 0 then Nothing
    else if |v| == 1 then SingleSeason("Season 1", EpisodeCountText(v[0].episodeCount))
    else Tabs(seq(|v|, i requires 0 <= i < |v| => TabOf(v[i], selected)))
  }

  /**
   * A show whose only regular season is season 2 (a listing with specials
   * and season 2) is shown as "Season 1".
   */
  lemma LoneSeasonMislabelled()
    ensures var specials := TvSeason(1, "Specials", "", None, 0, 3, "");
      var second := TvSeason(2, "Season 2", "", None, 2, 8, "");
      SelectorAsWritten([specials, second], 2) == SingleSeason("Season 1", "8 Episodes")
  {
    var specials := TvSeason(1, "Specials", "", None, 0, 3, "");
    var second := TvSeason(2, "Season 2", "", None, 2, 8, "");
    assert Filter([specials, second], IsRegular) == [second] by {
      assert [specials, second][1..] == [second];
      assert [second][1..] == [];
    }
    assert SortBy([second], SeasonNumber) == [second] by {
      assert [second][1..] == [];
      assert Insert(second, [], SeasonNumber) == [second];
    }
    assert EpisodeCountText(8) == "8 Episodes" by {
      assert IntToString(8) == [DigitChar(8)];
    }
  }

  /** The selector with a lone season titled by its own number. */
  function Selector(seasons: seq<TvSeason>, selected: int): SelectorView {
    var v := ValidSeasons(seasons);
    if |v| == 0 then Nothing
    else if |v| == 1 then SingleSeason("Season " + IntToString(v[0].seasonNumber), EpisodeCountText(v[0].episodeCount))
    else Tabs(seq(|v|, i requires 0 <= i < |v| => TabOf(v[i], selected)))
  }

  /**
   * No regular season renders nothing; one renders its own title and count;
   * more render one tab per offered season in order, each selecting its
   * own number, titled by it, and active exactly when it is the selected
   * one; that differs from the code as written only on the lone season's
   * title.
   */
  lemma SelectorSpec(seasons: seq<TvSeason>, selected: int)
    ensures var v := ValidSeasons(seasons);
      var view := Selector(seasons, selected);
      && (|v| == 0 <==> view == Nothing)
      && (|v| == 1 ==> view == SingleSeason("Season " + IntToString(v[0].seasonNumber), EpisodeCountText(v[0].episodeCount)))
      && (|v| >= 2 ==>
            view.Tabs? && |view.tabs| == |v|
            && forall i :: 0 <= i < |v| ==>
                 && view.tabs[i].seasonNumber == v[i].seasonNumber
                 && view.tabs[i].title == "Season " + IntToString(v[i].seasonNumber)
                 && (view.tabs[i].active <==> v[i].seasonNumber == selected))
      && (|v| != 1 ==> view == SelectorAsWritten(seasons, selected))
      && (|v| == 1 && v[0].seasonNumber == 1 ==> view == SelectorAsWritten(seasons, selected))
  {
  }

  /** With distinct season numbers at most one tab is active. */
  lemma AtMostOneActive(seasons: seq<TvSeason>, selected: int, i: int, j: int)
    requires Selector(seasons, selected).Tabs?
    requires 0 <= i < j < |Selector(seasons, selected).tabs|
    requires Selector(seasons, selected).tabs[i].seasonNumber != Selector(seasons, selected).tabs[j].seasonNumber
    ensures !(Selector(seasons, selected).tabs[i].active && Selector(seasons, selected).tabs[j].active)
  {
  }

  /** Both count labels start with the count itself, which reads back, so distinct counts label differently. */
  lemma CountTextsReadBack(n: nat)
    ensures ParseDigits(LeadingDigits(EpisodeCountText(n))) == n
    ensures ParseDigits(LeadingDigits(ShortCountText(n))) == n
  {
    var d := NatToString(n);
    assert ParseDigits(d) == n by { ParseNatToString(n); }
    var long := if n == 1 then " Episode" else " Episodes";
    var short := if n == 1 then " Ep" else " Eps";
    assert EpisodeCountText(n) == d + long;
    assert ShortCountText(n) == d + short;
    LeadingDigitsOfDigits(d, long);
    LeadingDigitsOfDigits(d, short);
  }
}
