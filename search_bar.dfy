/**
 * The search box with its recent-search dropdown
 * (components/features/search/SearchBar.tsx): submitting a query, the
 * dropdown's filtering of recent searches, and when the dropdown shows.
 */
module SearchBar {
  import opened Common
  import SearchStore

  /** What a search does once it is accepted: the caller's callback, or navigation. */
  datatype Effect = OnSearch(query: string) | Navigate(path: string)

  /** `/search?q=${encodeURIComponent(q)}`, without the percent-encoding. */
  function SearchPath(q: string): string {
    "/search?q=" + q
  }

  /** `recent.toLowerCase().includes(query.toLowerCase())` */
  predicate MatchesQuery(recent: string, query: string) {
    Contains(ToLower(recent), ToLower(query))
  }

  function Matches(query: string): string -> bool {
    recent => MatchesQuery(recent, query)
  }

  /** `filteredRecentSearches` */
  function FilteredRecent(recent: seq<string>, query: string, showRecentSearches: bool): seq<string> {
    if showRecentSearches then Filter(recent, Matches(query)) else []
  }

  /** `showDropdown` */
  predicate ShowDropdown(isOpen: bool, showRecentSearches: bool, recent: seq<string>, query: string) {
    isOpen && showRecentSearches && (|FilteredRecent(recent, query, showRecentSearches)| > 0 || |recent| > 0)
  }

  /** With nothing typed every recent search matches. */
  lemma EmptyQueryKeepsAll(recent: seq<string>)
    ensures Filter(recent, Matches("")) == recent
  {
    forall i | 0 <= i < |recent| ensures Matches("")(recent[i]) {
      ContainsEmpty(ToLower(recent[i]));
    }
    FilterAll(recent, Matches(""));
  }

  /**
   * The dropdown lists, in their stored order, the recent searches that
   * contain the typed text regardless of letter case; with nothing typed it
   * lists them all; with recent searches switched off it lists nothing.
   */
  lemma FilteredRecentSpec(recent: seq<string>, query: string, showRecentSearches: bool, r: string)
    ensures !showRecentSearches ==> FilteredRecent(recent, query, showRecentSearches) == []
    ensures showRecentSearches ==>
      (r in FilteredRecent(recent, query, showRecentSearches) <==> r in recent && MatchesQuery(r, query))
    ensures showRecentSearches && query == "" ==> FilteredRecent(recent, query, showRecentSearches) == recent
    ensures multiset(FilteredRecent(recent, query, showRecentSearches)) <= multiset(recent)
  {
    if showRecentSearches {
      FilterKeeps(recent, Matches(query), r);
      FilterSubMultiset(recent, Matches(query));
      if query == "" {
        EmptyQueryKeepsAll(recent);
      }
    }
  }

  /**
   * The dropdown shows exactly when the box has focus, recent searches are
   * on, and there is at least one recent search (the filtered list is part
   * of it, so it adds nothing to the condition).
   */
  lemma ShowDropdownSpec(isOpen: bool, showRecentSearches: bool, recent: seq<string>, query: string)
    ensures ShowDropdown(isOpen, showRecentSearches, recent, query) <==> isOpen && showRecentSearches && recent != []
  {
    if showRecentSearches {
      FilterSubMultiset(recent, Matches(query));
      if recent == [] {
        assert |multiset(FilteredRecent(recent, query, showRecentSearches))| <= |multiset(recent)|;
      }
    }
  }

  /** The dropdown's heading. */
  function DropdownHeading(query: string): string {
    if query != "" then "Matching Searches" else "Recent Searches"
  }

  /** The dropdown's text when the filtered list is empty. */
  function EmptyMessage(query: string): string {
    if query != "" then "No matching recent searches" else "No recent searches"
  }

  /** The search box: its text, whether its dropdown is open, and what its searches did. */
  class Bar {
    const store: SearchStore.Store
    const hasOnSearch: bool
    const showRecentSearches: bool
    var query: string
    var isOpen: bool
    var effects: seq<Effect>

    ghost predicate Valid()
      reads this, store
    {
      store.Valid()
    }

    constructor (store: SearchStore.Store, initialQuery: string, hasOnSearch: bool, showRecentSearches: bool)
      requires store.Valid()
      ensures Valid()
      ensures this.store == store && this.hasOnSearch == hasOnSearch && this.showRecentSearches == showRecentSearches
      ensures query == initialQuery && !isOpen && effects == []
    {
      this.store := store;
      this.hasOnSearch := hasOnSearch;
      this.showRecentSearches := showRecentSearches;
      query := initialQuery;
      isOpen := false;
      effects := [];
    }

    /**
     * `handleSearch(searchQuery)`: a query that trims to nothing does
     * nothing; otherwise the trimmed text is recorded as a recent search,
     * the dropdown closes, and the text goes to the callback, or to the
     * results page when there is none.
     */
    method HandleSearch(searchQuery: string)
      requires Valid()
      modifies this, store
      ensures Valid()
      ensures query == old(query)
      ensures Trim(searchQuery) == [] ==>
        isOpen == old(isOpen) && effects == old(effects)
        && store.recentSearches == old(store.recentSearches) && store.currentQuery == old(store.currentQuery)
      ensures Trim(searchQuery) != [] ==>
        && !isOpen
        && store.recentSearches == SearchStore.WithRecentSearch(old(store.recentSearches), searchQuery)
        && store.currentQuery == old(store.currentQuery)
        && effects == old(effects) + [if hasOnSearch then OnSearch(Trim(searchQuery)) else Navigate(SearchPath(Trim(searchQuery)))]
    {
      var trimmedQuery := Trim(searchQuery);
      if trimmedQuery == [] {
        return;
      }
      SearchStore.AddRecentTrims(old(store.recentSearches), searchQuery);
      store.AddRecentSearch(trimmedQuery);
      isOpen := false;
      if hasOnSearch {
        effects := effects + [OnSearch(trimmedQuery)];
      } else {
        effects := effects + [Navigate(SearchPath(trimmedQuery))];
      }
    }

    /** `handleSubmit`: searches for the text in the box. */
    method HandleSubmit()
      requires Valid()
      modifies this, store
      ensures Valid()
      ensures query == old(query)
      ensures store.currentQuery == old(store.currentQuery)
      ensures Trim(query) == [] ==>
        isOpen == old(isOpen) && effects == old(effects) && store.recentSearches == old(store.recentSearches)
      ensures Trim(query) != [] ==>
        !isOpen && store.recentSearches == SearchStore.WithRecentSearch(old(store.recentSearches), query)
        && effects == old(effects) + [if hasOnSearch then OnSearch(Trim(query)) else Navigate(SearchPath(Trim(query)))]
    {
      HandleSearch(query);
    }

    /** `handleRecentSearchClick(recent)`: puts the entry in the box and searches for it. */
    method HandleRecentSearchClick(recent: string)
      requires Valid()
      modifies this, store
      ensures Valid()
      ensures query == recent
      ensures Trim(recent) != [] ==>
        !isOpen && store.recentSearches == SearchStore.WithRecentSearch(old(store.recentSearches), recent)
        && effects == old(effects) + [if hasOnSearch then OnSearch(Trim(recent)) else Navigate(SearchPath(Trim(recent)))]
      ensures Trim(recent) == [] ==>
        isOpen == old(isOpen) && effects == old(effects) && store.recentSearches == old(store.recentSearches)
      ensures store.currentQuery == old(store.currentQuery)
    {
      query := recent;
      HandleSearch(recent);
    }

    /** `handleRemoveRecentSearch`: drops the entry without searching. */
    method HandleRemoveRecentSearch(recent: string)
      requires Valid()
      modifies store
      ensures Valid()
      ensures store.recentSearches == SearchStore.Without(old(store.recentSearches), recent)
      ensures store.currentQuery == old(store.currentQuery)
    {
      store.RemoveRecentSearch(recent);
    }

    /** Typing into the box. */
    method SetQuery(text: string)
      modifies this
      ensures query == text && isOpen == old(isOpen) && effects == old(effects)
    {
      query := text;
    }

    /** Focusing the box opens the dropdown; a click outside closes it. */
    method SetOpen(open: bool)
      modifies this
      ensures isOpen == open && query == old(query) && effects == old(effects)
    {
      isOpen := open;
    }
  }
}
