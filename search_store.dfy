/**
 * The search store (stores/searchStore.ts): recent searches, most recent
 * first, without duplicates and at most 10, plus the current query text.
 */
module SearchStore {
  import opened Common

  /** `.slice(0, 10)` in `addRecentSearch`. */
  const MaxRecent: nat := 10

  ghost predicate NoDuplicates(s: seq<string>) {
    forall i, j :: 0 <= i < j < |s| ==> s[i] != s[j]
  }

  /** The test `(q) => q !== query`. */
  function Differs(query: string): string -> bool {
    q => q != query
  }

  /** `recentSearches.filter((q) => q !== query)` */
  function Without(list: seq<string>, query: string): seq<string> {
    Filter(list, Differs(query))
  }

  /** The list `addRecentSearch(query)` leaves behind. */
  function WithRecentSearch(list: seq<string>, query: string): seq<string> {
    var trimmed := Trim(query);
    if trimmed == [] then list else Take([trimmed] + Without(list, trimmed), MaxRecent)
  }

  /** A query that is empty or only whitespace changes nothing. */
  lemma AddBlankUnchanged(list: seq<string>, query: string)
    requires forall i :: 0 <= i < |query| ==> IsJsWhitespace(query[i])
    ensures WithRecentSearch(list, query) == list
  {
    TrimEmpty(query);
  }

  /**
   * Otherwise the trimmed query is the head, no other copy of it remains,
   * the rest is the old list without it in its old order, and at most 10
   * entries are kept.
   */
  lemma AddRecentHead(list: seq<string>, query: string)
    requires Trim(query) != []
    ensures var r := WithRecentSearch(list, query);
      1 <= |r| <= MaxRecent && r[0] == Trim(query)
      && r[1..] == Take(Without(list, Trim(query)), MaxRecent - 1)
      && Trim(query) !in r[1..]
  {
    var t := Trim(query);
    var w := Without(list, t);
    var r := Take([t] + w, MaxRecent);
    assert r[0] == t;
    assert r[1..] == Take(w, MaxRecent - 1);
    FilterKeeps(list, Differs(t), t);
    assert t !in w;
  }

  /** Surrounding whitespace does not matter: the trimmed text is what is recorded. */
  lemma AddRecentTrims(list: seq<string>, query: string)
    ensures WithRecentSearch(list, query) == WithRecentSearch(list, Trim(query))
  {
    TrimIdempotent(query);
  }

  /** Removing the head from a list holding no other copy of it leaves the tail. */
  lemma WithoutHead(t: string, tail: seq<string>)
    requires t !in tail
    ensures Without([t] + tail, t) == tail
  {
    FilterConcat([t], tail, Differs(t));
    assert Filter([t], Differs(t)) == [];
    forall i | 0 <= i < |tail| ensures Differs(t)(tail[i]) {
      assert tail[i] in tail;
    }
    FilterAll(tail, Differs(t));
  }

  /** Adding the same query twice in a row is adding it once. */
  lemma AddRecentIdempotent(list: seq<string>, query: string)
    ensures WithRecentSearch(WithRecentSearch(list, query), query) == WithRecentSearch(list, query)
  {
    var t := Trim(query);
    if t != [] {
      var r := WithRecentSearch(list, query);
      AddRecentHead(list, query);
      var tail := r[1..];
      assert r == [t] + tail;
      WithoutHead(t, tail);
      assert WithRecentSearch(r, query) == Take([t] + tail, MaxRecent);
    }
  }

  /** Adding keeps the list free of duplicates. */
  lemma AddRecentNoDuplicates(list: seq<string>, query: string)
    requires NoDuplicates(list)
    ensures NoDuplicates(WithRecentSearch(list, query))
  {
    var t := Trim(query);
    if t != [] {
      var w := Without(list, t);
      WithoutNoDuplicates(list, t);
      AddRecentHead(list, query);
      var r := WithRecentSearch(list, query);
      forall i, j | 0 <= i < j < |r| ensures r[i] != r[j] {
        assert r[j] == r[1..][j - 1] == w[j - 1];
        assert w[j - 1] in w;
        if i > 0 {
          assert r[i] == r[1..][i - 1] == w[i - 1];
        }
      }
    }
  }

  /** Removing keeps the list free of duplicates. */
  lemma {:induction false} WithoutNoDuplicates(list: seq<string>, query: string)
    requires NoDuplicates(list)
    ensures NoDuplicates(Without(list, query))
    decreases |list|
  {
    if list != [] {
      assert NoDuplicates(list[1..]);
      WithoutNoDuplicates(list[1..], query);
      var rest := Without(list[1..], query);
      forall j | 0 <= j < |rest| ensures rest[j] != list[0] {
        assert rest[j] in rest;
        var k :| 0 <= k < |list[1..]| && list[1..][k] == rest[j];
        assert list[k + 1] == rest[j];
      }
    }
  }

  /**
   * `removeRecentSearch` drops exactly the entries equal to its argument as
   * given (it does not trim), and nothing else.
   */
  lemma RemoveRecentExact(list: seq<string>, query: string, q: string)
    ensures q in Without(list, query) <==> q in list && q != query
    ensures query !in Without(list, query)
  {
    FilterKeeps(list, Differs(query), q);
  }

  class Store {
    var recentSearches: seq<string>
    var currentQuery: string

    ghost predicate Valid()
      reads this
    {
      NoDuplicates(recentSearches) && |recentSearches| <= MaxRecent
    }

    constructor ()
      ensures Valid() && recentSearches == [] && currentQuery == ""
    {
      recentSearches := [];
      currentQuery := "";
    }

    method AddRecentSearch(query: string)
      requires Valid()
      modifies this
      ensures Valid()
      ensures recentSearches == WithRecentSearch(old(recentSearches), query)
      ensures currentQuery == old(currentQuery)
    {
      AddRecentNoDuplicates(recentSearches, query);
      var trimmed := Trim(query);
      if trimmed == [] {
        return;
      }
      var filtered := Without(recentSearches, trimmed);
      recentSearches := Take([trimmed] + filtered, MaxRecent);
    }

    method RemoveRecentSearch(query: string)
      requires Valid()
      modifies this
      ensures Valid()
      ensures recentSearches == Without(old(recentSearches), query)
      ensures currentQuery == old(currentQuery)
    {
      WithoutNoDuplicates(recentSearches, query);
      recentSearches := Without(recentSearches, query);
    }

    method ClearRecentSearches()
      requires Valid()
      modifies this
      ensures Valid()
      ensures recentSearches == [] && currentQuery == old(currentQuery)
    {
      recentSearches := [];
    }

    method SetCurrentQuery(query: string)
      requires Valid()
      modifies this
      ensures Valid()
      ensures currentQuery == query && recentSearches == old(recentSearches)
    {
      currentQuery := query;
    }
  }
}
