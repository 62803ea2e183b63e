/**
 * The search filter panel (components/features/search/SearchFilters.tsx):
 * the genre, year and rating options, the change and reset handlers, and
 * the summary line of the active filters.
 */
module SearchFilters {
  import opened Common

  /** `{year, genre, minRating}`; an empty text means no restriction. */
  datatype Filters = Filters(year: string, genre: string, minRating: int)

  /** `GENRES`: the option value (a catalogue genre id) and its name. */
  const Genres: seq<(string, string)> := [
    ("", "All Genres"), ("28", "Action"), ("12", "Adventure"), ("16", "Animation"),
    ("35", "Comedy"), ("80", "Crime"), ("99", "Documentary"), ("18", "Drama"),
    ("10751", "Family"), ("14", "Fantasy"), ("36", "History"), ("27", "Horror"),
    ("10402", "Music"), ("9648", "Mystery"), ("10749", "Romance"), ("878", "Science Fiction"),
    ("10770", "TV Movie"), ("53", "Thriller"), ("10752", "War"), ("37", "Western")]

  /** `RATINGS` */
  const Ratings: seq<(int, string)> := [(0, "All Ratings"), (7, "7+ ⭐"), (8, "8+ ⭐⭐"), (9, "9+ ⭐⭐⭐")]

  /** `GENRES.find((g) => g.id === id)?.name`: the name of the first entry with that id. */
  function FindGenre(table: seq<(string, string)>, id: string): (r: Option<string>)
    ensures r.Some? <==> exists i :: 0 <= i < |table| && table[i].0 == id
    ensures r.Some? ==> exists i :: 0 <= i < |table| && table[i] == (id, r.value) &&
                                   forall j :: 0 <= j < i ==> table[j].0 != id
    decreases |table|
  {
    if table == [] then None
    else if table[0].0 == id then Some(table[0].1)
    else
      var r := FindGenre(table[1..], id);
      assert forall i :: 0 < i < |table| ==> table[i] == table[1..][i - 1];
      r
  }

  /** One year option: the year as both value and text. */
  function YearOption(year: int): (string, string) {
    (IntToString(year), IntToString(year))
  }

  /** `YEARS`: "All Years", then the current year down to 1900. */
  function YearOptions(currentYear: int): seq<(string, string)> {
    var n := if currentYear - 1899 > 0 then currentYear - 1899 else 0;
    [("", "All Years")] + seq(n, i requires 0 <= i < n => YearOption(currentYear - i))
  }

  /** Option `k` after "All Years" is the year `currentYear - k + 1`. */
  lemma YearOptionAt(currentYear: int, k: int)
    requires currentYear >= 1900 && 1 <= k < currentYear - 1898
    ensures |YearOptions(currentYear)| == currentYear - 1898
    ensures YearOptions(currentYear)[k] == YearOption(currentYear - k + 1)
  {
    var n := currentYear - 1899;
    var years := seq(n, i requires 0 <= i < n => YearOption(currentYear - i));
    assert YearOptions(currentYear) == [("", "All Years")] + years;
    assert years[k - 1] == YearOption(currentYear - (k - 1));
  }

  /**
   * From 1900 on there is one option per year from the current one down to
   * 1900 after "All Years", so `currentYear - 1898` options; option `k`
   * is the year `currentYear - k + 1`, shown as its own value; the last
   * is 1900. Before 1900 only "All Years" is offered.
   */
  lemma YearOptionsSpec(currentYear: int, k: int)
    ensures currentYear < 1900 ==> YearOptions(currentYear) == [("", "All Years")]
    ensures currentYear >= 1900 ==>
      && |YearOptions(currentYear)| == currentYear - 1898
      && YearOptions(currentYear)[0] == ("", "All Years")
      && YearOptions(currentYear)[1] == YearOption(currentYear)
      && YearOptions(currentYear)[currentYear - 1898 - 1] == ("1900", "1900")
    ensures currentYear >= 1900 && 1 <= k < currentYear - 1898 ==>
      YearOptions(currentYear)[k] == YearOption(currentYear - k + 1)
  {
    if currentYear >= 1900 {
      assert NatToString(1) == "1";
      assert NatToString(19) == "19" by { assert NatToString(19) == NatToString(1) + "9"; }
      assert NatToString(190) == "190" by { assert NatToString(190) == NatToString(19) + "0"; }
      assert NatToString(1900) == "1900" by { assert NatToString(1900) == NatToString(190) + "0"; }
      assert IntToString(1900) == "1900";
      YearOptionAt(currentYear, 1);
      YearOptionAt(currentYear, currentYear - 1898 - 1);
      if 1 <= k < currentYear - 1898 {
        YearOptionAt(currentYear, k);
      }
    }
  }

  /**
   * A year option's value reads back as its year, so the options, which
   * hold successive years, carry distinct values.
   */
  lemma YearOptionParses(y: int)
    requires y >= 0
    ensures AllDigits(YearOption(y).0) && ParseDigits(YearOption(y).0) == y
  {
    ParseNatToString(y);
  }

  /** `hasActiveFilters`; an empty text is falsy. */
  predicate HasActiveFilters(f: Filters) {
    f.year != "" || f.genre != "" || f.minRating > 0
  }

  /** `handleReset`'s value. */
  const NoFilters: Filters := Filters("", "", 0)

  /** One part of the summary line, kept by `.filter(Boolean)` only when it is a non-empty text. */
  function Truthy(part: Option<string>): (r: seq<string>)
    ensures r == [] || (part.Some? && r == [part.value] && part.value != "")
  {
    if part.Some? && part.value != "" then [part.value] else []
  }

  /** The genre, year and rating parts of the summary that are shown, given the genre's name. */
  function LabelParts(f: Filters, genreName: Option<string>): (r: seq<string>)
    ensures |r| <= 3
  {
    Truthy(if f.genre != "" then genreName else None)
      + Truthy(if f.year != "" then Some(f.year) else None)
      + Truthy(if f.minRating > 0 then Some(IntToString(f.minRating) + "+ rating") else None)
  }

  /** The listed name of a chosen genre. */
  function GenreName(genre: string): Option<string> {
    FindGenre(Genres, genre)
  }

  /** The summary line of the active filters. */
  function ActiveLabel(f: Filters): string {
    Join(LabelParts(f, GenreName(f.genre)), " • ")
  }

  /** The active-filter indicator: shown only while a filter is active. */
  function Indicator(f: Filters): Option<string> {
    if HasActiveFilters(f) then Some(ActiveLabel(f)) else None
  }

  /** Every genre on offer has a name. */
  lemma GenreNamesNonEmpty(id: string)
    ensures GenreName(id).Some? ==> GenreName(id).value != ""
  {
    assert forall i :: 0 <= i < |Genres| ==> Genres[i].1 != "";
  }

  /**
   * With a named genre, a year and a rating the summary reads
   * "<genre> • <year> • <n>+ rating".
   */
  lemma LabelFull(f: Filters, name: string)
    requires f.genre != "" && name != "" && f.year != "" && f.minRating > 0
    ensures Join(LabelParts(f, Some(name)), " • ") == name + " • " + f.year + " • " + IntToString(f.minRating) + "+ rating"
  {
    assert LabelParts(f, Some(name)) == [name, f.year, IntToString(f.minRating) + "+ rating"];
    JoinThree(name, f.year, IntToString(f.minRating) + "+ rating", " • ");
  }

  /** The summary is empty exactly when no part is shown. */
  lemma LabelEmpty(f: Filters, genreName: Option<string>)
    requires genreName.Some? ==> genreName.value != ""
    ensures Join(LabelParts(f, genreName), " • ") == "" <==>
      (f.genre == "" || genreName.None?) && f.year == "" && f.minRating <= 0
  {
    var parts := LabelParts(f, genreName);
    if parts != [] {
      assert parts[0] != "";
      assert |Join(parts, " • ")| >= |parts[0]|;
    }
  }

  /**
   * The indicator is shown exactly while a filter is active, never after a
   * reset; its text is empty only for an unlisted genre with neither a
   * year nor a rating; a listed genre, a year and a rating read
   * "<genre> • <year> • <n>+ rating", and a year alone reads as the year.
   */
  lemma IndicatorSpec(f: Filters)
    ensures Indicator(f).Some? <==> HasActiveFilters(f)
    ensures Indicator(NoFilters) == None
    ensures ActiveLabel(f) == "" <==>
      (f.genre == "" || GenreName(f.genre).None?) && f.year == "" && f.minRating <= 0
    ensures f.genre != "" && GenreName(f.genre).Some? && f.year != "" && f.minRating > 0 ==>
      ActiveLabel(f) == GenreName(f.genre).value + " • " + f.year + " • " + IntToString(f.minRating) + "+ rating"
    ensures f.genre == "" && f.year != "" && f.minRating <= 0 ==> ActiveLabel(f) == f.year
  {
    var g := GenreName(f.genre);
    GenreNamesNonEmpty(f.genre);
    LabelEmpty(f, g);
    if f.genre != "" && g.Some? && f.year != "" && f.minRating > 0 {
      LabelFull(f, g.value);
    }
    if f.genre == "" && f.year != "" && f.minRating <= 0 {
      assert LabelParts(f, g) == [f.year];
    }
  }

  /** The panel: its local copy of the filters, whether it is open, and what it reported. */
  class Panel {
    var localFilters: Filters
    var isExpanded: bool
    var reported: seq<Filters>

    constructor (filters: Filters)
      ensures localFilters == filters && !isExpanded && reported == []
    {
      localFilters := filters;
      isExpanded := false;
      reported := [];
    }

    /** The effect copying new props into the local state. */
    method SyncFromProps(filters: Filters)
      modifies this
      ensures localFilters == filters && isExpanded == old(isExpanded) && reported == old(reported)
    {
      localFilters := filters;
    }

    /** `handleYearChange`: only the year changes, and the new filters are reported. */
    method HandleYearChange(year: string)
      modifies this
      ensures localFilters == old(localFilters).(year := year)
      ensures reported == old(reported) + [localFilters] && isExpanded == old(isExpanded)
    {
      var updated := localFilters.(year := year);
      localFilters := updated;
      reported := reported + [updated];
    }

    /** `handleGenreChange`: only the genre changes. */
    method HandleGenreChange(genre: string)
      modifies this
      ensures localFilters == old(localFilters).(genre := genre)
      ensures reported == old(reported) + [localFilters] && isExpanded == old(isExpanded)
    {
      var updated := localFilters.(genre := genre);
      localFilters := updated;
      reported := reported + [updated];
    }

    /** `handleRatingChange`: only the minimum rating changes. */
    method HandleRatingChange(rating: int)
      modifies this
      ensures localFilters == old(localFilters).(minRating := rating)
      ensures reported == old(reported) + [localFilters] && isExpanded == old(isExpanded)
    {
      var updated := localFilters.(minRating := rating);
      localFilters := updated;
      reported := reported + [updated];
    }

    /** `handleReset`: every field back to "no restriction", reported; nothing stays active. */
    method HandleReset()
      modifies this
      ensures localFilters == NoFilters && !HasActiveFilters(localFilters)
      ensures reported == old(reported) + [NoFilters] && isExpanded == old(isExpanded)
    {
      localFilters := NoFilters;
      reported := reported + [NoFilters];
    }

    /** The toggle that shows or hides the panel on small screens. */
    method ToggleExpanded()
      modifies this
      ensures isExpanded == !old(isExpanded) && localFilters == old(localFilters) && reported == old(reported)
    {
      isExpanded := !isExpanded;
    }
  }
}
